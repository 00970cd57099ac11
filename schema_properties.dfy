/**
  What the five record classes promise their callers, stated over Schema.Validate
  and Schema.Dump: the exact `kind` discriminator, required fields, identifier
  coercion, all-or-nothing list validation, equality, ignored extra keys and the
  dump/validate round trip.
 */
module SchemaProperties {
  import opened Wrappers
  import opened Uuids
  import opened Schema

  // ---------------------------------------------------------------------------
  // The `kind` discriminator
  // ---------------------------------------------------------------------------

  /** No two classes share a literal, and no literal is empty. */
  lemma LiteralsDistinct(m: Model, n: Model)
    ensures Literal(m) != ""
    ensures m != n ==> Literal(m) != Literal(n)
  {
  }

  /** Whether sub occurs in s at position i. */
  predicate OccursAt(s: string, sub: string, i: int) {
    0 <= i <= |s| - |sub| && s[i..i + |sub|] == sub
  }

  /** Whether sub occurs in s at some position. */
  ghost predicate Contains(s: string, sub: string) {
    exists i :: OccursAt(s, sub, i)
  }

  /** The refusal message quotes the one accepted literal verbatim. */
  lemma KindMessageQuotesLiteral(m: Model)
    ensures Contains(KindMessage(m), "'" + Literal(m) + "'")
    ensures KindMessage(m)[..13] == "kind must be "
  {
    var msg := KindMessage(m);
    var quoted := "'" + Literal(m) + "'";
    assert msg == "kind must be " + quoted;
    assert OccursAt(msg, quoted, 13);
  }

  /** Any string other than the literal, the empty string included, is refused with the message. */
  lemma KindMismatchRejected(m: Model, input: map<string, Raw>, k: string)
    requires "kind" in input && input["kind"] == Str(k) && k != Literal(m)
    ensures Validate(m, input).Err?
    ensures FieldError(Field("kind"), ValueError(KindMessage(m))) in Validate(m, input).error
  {
  }

  /** Another class's literal (the singular/plural counterpart included) is refused. */
  lemma OtherClassLiteralRejected(m: Model, n: Model, input: map<string, Raw>)
    requires m != n
    requires "kind" in input && input["kind"] == Str(Literal(n))
    ensures Validate(m, input).Err?
    ensures FieldError(Field("kind"), ValueError(KindMessage(m))) in Validate(m, input).error
  {
  }

  /** A record that validates stores the input's `kind` string unchanged. */
  lemma KindStoredUnchanged(m: Model, input: map<string, Raw>)
    requires Validate(m, input).Ok?
    ensures input["kind"] == Str(Validate(m, input).value.kind)
  {
  }

  // ---------------------------------------------------------------------------
  // Required fields
  // ---------------------------------------------------------------------------

  /** A missing `id` or `kind` fails validation with an error naming that field. */
  lemma MissingFieldNamed(m: Model, input: map<string, Raw>, f: string)
    requires f == "id" || f == "kind"
    requires f !in input
    ensures Validate(m, input).Err?
    ensures FieldError(Field(f), Missing) in Validate(m, input).error
  {
  }

  /** An explicit null in `id` or `kind` fails validation with an error naming that field. */
  lemma NullFieldNamed(m: Model, input: map<string, Raw>, f: string)
    requires f == "id" || f == "kind"
    requires f in input && input[f] == Null
    ensures Validate(m, input).Err?
    ensures FieldError(Field(f), WrongType) in Validate(m, input).error
  {
  }

  // ---------------------------------------------------------------------------
  // A single identifier
  // ---------------------------------------------------------------------------

  /** An identifier may be given as a value or as its canonical text, with the same outcome. */
  lemma TextAndValueInterchangeable(m: Model, input: map<string, Raw>, u: Uuid)
    requires !IsListModel(m)
    ensures Validate(m, input["id" := Str(Format(u))]) == Validate(m, input["id" := UuidValue(u)])
  {
    ParseFormat(u);
    assert CoerceUuid(Str(Format(u))) == CoerceUuid(UuidValue(u));
  }

  /** An identifier given as a value is stored as that very identifier. */
  lemma GivenUuidStored(m: Model, input: map<string, Raw>, u: Uuid)
    requires !IsListModel(m)
    requires "kind" in input && input["kind"] == Str(Literal(m))
    ensures Validate(m, input["id" := UuidValue(u)]).Ok?
    ensures IdOf(Validate(m, input["id" := UuidValue(u)]).value) == One(u)
  {
  }

  /** A lower-case canonical text is stored as the identifier whose text it is. */
  lemma TextIdFormatsBack(m: Model, input: map<string, Raw>, s: string)
    requires !IsListModel(m)
    requires IsLowerCanonical(s)
    requires "kind" in input && input["kind"] == Str(Literal(m))
    ensures Validate(m, input["id" := Str(s)]).Ok?
    ensures Format(IdOf(Validate(m, input["id" := Str(s)]).value).u) == s
  {
  }

  /** A text outside the canonical grammar, such as "not-a-uuid", is refused as malformed. */
  lemma MalformedTextRejected(m: Model, input: map<string, Raw>, s: string)
    requires !IsListModel(m)
    requires !IsCanonical(s)
    ensures Validate(m, input["id" := Str(s)]).Err?
    ensures FieldError(Field("id"), BadFormat) in Validate(m, input["id" := Str(s)]).error
  {
  }

  // ---------------------------------------------------------------------------
  // A list of identifiers
  // ---------------------------------------------------------------------------

  /** The empty list is accepted and yields a record with no identifiers. */
  lemma EmptyListAccepted(m: Model)
    requires IsListModel(m)
    ensures Validate(m, map["id" := List([]), "kind" := Str(Literal(m))]) == Ok(Build(m, Many([]), Literal(m)))
  {
  }

  /** Validation keeps the list's length and order, element for element. */
  lemma ListKeepsLengthAndOrder(m: Model, input: map<string, Raw>)
    requires IsListModel(m)
    requires Validate(m, input).Ok?
    ensures input["id"].List?
    ensures |IdOf(Validate(m, input).value).us| == |input["id"].items|
    ensures forall i :: 0 <= i < |input["id"].items| ==>
      CoerceUuid(input["id"].items[i]) == Ok(IdOf(Validate(m, input).value).us[i])
  {
  }

  /** Repeated identifiers are accepted and kept. */
  lemma DuplicatesAccepted(m: Model, u: Uuid)
    requires IsListModel(m)
    ensures Validate(m, map["id" := List([UuidValue(u), UuidValue(u)]), "kind" := Str(Literal(m))])
         == Ok(Build(m, Many([u, u]), Literal(m)))
  {
    var items := [UuidValue(u), UuidValue(u)];
    var us := CoerceUuidList("id", items).value;
    assert CoerceUuid(items[0]) == Ok(us[0]) && CoerceUuid(items[1]) == Ok(us[1]);
    assert us == [u, u];
  }

  /** One refused element refuses the whole record, and the error gives its index. */
  lemma InvalidElementRejectsRecord(m: Model, input: map<string, Raw>, i: nat)
    requires IsListModel(m)
    requires "id" in input && input["id"].List?
    requires i < |input["id"].items| && !IsUuidLike(input["id"].items[i])
    ensures Validate(m, input).Err?
    ensures FieldError(Element("id", i), CoerceUuid(input["id"].items[i]).error) in Validate(m, input).error
  {
  }

  /** A bare value where a list is declared is refused, even a valid identifier. */
  lemma ScalarRejectedWhereListDeclared(m: Model, input: map<string, Raw>)
    requires IsListModel(m)
    requires "id" in input && !input["id"].List?
    ensures Validate(m, input).Err?
    ensures FieldError(Field("id"), WrongType) in Validate(m, input).error
  {
  }

  /** Two lists whose elements coerce alike validate alike, errors included. */
  lemma {:induction false} CoerceUuidListCongruent(name: string, a: seq<Raw>, b: seq<Raw>)
    requires |a| == |b|
    requires forall i :: 0 <= i < |a| ==> CoerceUuid(a[i]) == CoerceUuid(b[i])
    ensures CoerceUuidList(name, a) == CoerceUuidList(name, b)
  {
    if a != [] {
      var n := |a| - 1;
      CoerceUuidListCongruent(name, a[..n], b[..n]);
      assert CoerceUuid(a[n]) == CoerceUuid(b[n]);
    }
  }

  /** Inside a list too, an identifier may be given as a value or as its canonical text. */
  lemma ElementTextAndValueInterchangeable(m: Model, input: map<string, Raw>, items: seq<Raw>, i: nat, u: Uuid)
    requires IsListModel(m)
    requires i < |items|
    ensures Validate(m, input["id" := List(items[i := Str(Format(u))])])
         == Validate(m, input["id" := List(items[i := UuidValue(u)])])
  {
    ParseFormat(u);
    var a := items[i := Str(Format(u))];
    var b := items[i := UuidValue(u)];
    forall j | 0 <= j < |a| ensures CoerceUuid(a[j]) == CoerceUuid(b[j]) {
    }
    CoerceUuidListCongruent("id", a, b);
  }

  // ---------------------------------------------------------------------------
  // Equality
  // ---------------------------------------------------------------------------

  /** Records are equal exactly when class, identifiers and kind are all equal. */
  lemma RecordEqualityIsFieldwise(a: Record, b: Record)
    ensures a == b <==> ModelOf(a) == ModelOf(b) && IdOf(a) == IdOf(b) && a.kind == b.kind
  {
  }

  /** Records of different classes are never equal, whatever identifiers they carry. */
  lemma DifferentClassesNeverEqual(m: Model, n: Model, input1: map<string, Raw>, input2: map<string, Raw>)
    requires m != n
    requires Validate(m, input1).Ok? && Validate(n, input2).Ok?
    ensures Validate(m, input1).value != Validate(n, input2).value
  {
  }

  /** The same identifiers in another order make a different record. */
  lemma ListOrderMatters(m: Model, a: Uuid, b: Uuid)
    requires IsListModel(m)
    requires a != b
    ensures Validate(m, map["id" := List([UuidValue(a), UuidValue(b)]), "kind" := Str(Literal(m))]).Ok?
    ensures Validate(m, map["id" := List([UuidValue(b), UuidValue(a)]), "kind" := Str(Literal(m))]).Ok?
    ensures Validate(m, map["id" := List([UuidValue(a), UuidValue(b)]), "kind" := Str(Literal(m))]).value
         != Validate(m, map["id" := List([UuidValue(b), UuidValue(a)]), "kind" := Str(Literal(m))]).value
  {
  }

  // ---------------------------------------------------------------------------
  // Extra keys
  // ---------------------------------------------------------------------------

  /** A key other than `id` and `kind` never changes the outcome. */
  lemma ExtraKeyIgnored(m: Model, input: map<string, Raw>, k: string, v: Raw)
    requires k != "id" && k != "kind"
    ensures Validate(m, input[k := v]) == Validate(m, input)
  {
  }

  /** Only `id` and `kind` are read: dropping every other key changes nothing. */
  lemma OnlyDeclaredFieldsRead(m: Model, input: map<string, Raw>)
    ensures Validate(m, input) == Validate(m, map k | k in input && (k == "id" || k == "kind") :: input[k])
  {
  }

  // ---------------------------------------------------------------------------
  // Serialisation
  // ---------------------------------------------------------------------------

  /** In JSON mode every identifier is rendered as its lower-case canonical text. */
  lemma JsonDumpRendersText(r: Record)
    ensures IdOf(r).One? ==> Dump(r, JsonMode)["id"] == Str(Format(IdOf(r).u))
    ensures IdOf(r).Many? ==> |Dump(r, JsonMode)["id"].items| == |IdOf(r).us|
    ensures IdOf(r).Many? ==> forall i :: 0 <= i < |IdOf(r).us| ==>
      && Dump(r, JsonMode)["id"].items[i] == Str(Format(IdOf(r).us[i]))
      && IsLowerCanonical(Dump(r, JsonMode)["id"].items[i].s)
  {
  }

  /** A dumped identifier coerces back to itself. */
  lemma CoerceDumpedUuid(u: Uuid, mode: DumpMode)
    ensures CoerceUuid(DumpUuid(u, mode)) == Ok(u)
  {
    ParseFormat(u);
  }

  /** Dumping a validated record, in either mode, and validating the dump gives the record back. */
  lemma DumpValidateRoundTrip(m: Model, input: map<string, Raw>, mode: DumpMode)
    requires Validate(m, input).Ok?
    ensures Validate(m, Dump(Validate(m, input).value, mode)) == Validate(m, input)
  {
    var r := Validate(m, input).value;
    var out := Dump(r, mode);
    match IdOf(r)
    case One(u) =>
      CoerceDumpedUuid(u, mode);
      assert ValidateId(m, out) == Ok(One(u));
    case Many(us) =>
      var items := out["id"].items;
      forall i | 0 <= i < |items| ensures CoerceUuid(items[i]) == Ok(us[i]) {
        CoerceDumpedUuid(us[i], mode);
      }
      var back := CoerceUuidList("id", items);
      assert back.Ok?;
      assert back.value == us;
      assert ValidateId(m, out) == Ok(Many(us));
  }
}
