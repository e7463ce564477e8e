/** The form state all three form components keep: `formData`, a dictionary from input
    name to its text, and `errors`, a dictionary from field name to its message. An empty
    message means "no error" to the page, which shows only truthy entries.

    Each form's input and error names are a fixed set, so they are modelled as a datatype
    `K` per form. */
module Forms {
  import opened Common
  import opened Patterns

  /** `formData[name]`: a name the form never set reads as the empty string (both are falsy
      and both have length 0 in the checks the validators make). */
  function FieldValue<K(==,!new)>(form: map<K, string>, name: K): string {
    if name in form then form[name] else ""
  }

  /** `errors[name]` is truthy: the page shows a message for `name`. */
  predicate Shown<K(==,!new)>(errors: map<K, string>, name: K) {
    name in errors && errors[name] != ""
  }

  /** The error update in `handleChange`: a shown message for the edited field becomes `''`;
      the key itself stays, and every other field's entry is untouched. */
  function ClearError<K(==,!new)>(errors: map<K, string>, name: K): (r: map<K, string>)
    ensures !Shown(r, name)
    ensures (name in r <==> name in errors)
    ensures forall k :: k != name ==> (k in r <==> k in errors)
    ensures forall k :: k != name && k in errors ==> r[k] == errors[k]
    ensures !Shown(errors, name) ==> r == errors
  {
    if Shown(errors, name) then errors[name := ""] else errors
  }

  /** `newErrors[name] = message` when the field's check produced one. */
  function PutError<K(==,!new)>(errors: map<K, string>, name: K, message: Option<string>): (r: map<K, string>)
    ensures message.Some? ==> name in r && r[name] == message.value
    ensures message.None? ==> r == errors
    ensures forall k :: k != name ==> (k in r <==> k in errors)
    ensures forall k :: k != name && k in errors ==> r[k] == errors[k]
  {
    if message.Some? then errors[name := message.value] else errors
  }

  /** The check both forms make on the email field. */
  function EmailError(e: string): (r: Option<string>)
    ensures e == "" ==> r == Some("Email is required")
    ensures e != "" && !EmailLooksValid(e) ==> r == Some("Email is invalid")
    ensures r == None <==> EmailLooksValid(e)
  {
    if e == "" then Some("Email is required")
    else if !EmailLooksValid(e) then Some("Email is invalid")
    else None
  }

  /** The dictionary a validator builds by running its checks in order, each adding its
      message under its field when it has one. */
  function Collect<K(==,!new)>(checks: seq<(K, Option<string>)>): map<K, string>
    decreases |checks|
  {
    if checks == [] then map[]
    else
      var last := checks[|checks| - 1];
      PutError(Collect(checks[..|checks| - 1]), last.0, last.1)
  }

  /** No two checks report under the same field. */
  predicate DistinctFields<K(==,!new)>(checks: seq<(K, Option<string>)>) {
    forall i, j :: 0 <= i < j < |checks| ==> checks[i].0 != checks[j].0
  }

  /** Running one more check. */
  lemma CollectSnoc<K(!new)>(checks: seq<(K, Option<string>)>, c: (K, Option<string>))
    ensures Collect(checks + [c]) == PutError(Collect(checks), c.0, c.1)
  {
    assert (checks + [c])[..|checks|] == checks;
  }

  /** A name no check reports under never appears. */
  lemma {:induction false} CollectAbsent<K(!new)>(checks: seq<(K, Option<string>)>, k: K)
    requires forall i :: 0 <= i < |checks| ==> checks[i].0 != k
    ensures k !in Collect(checks)
    decreases |checks|
  {
    if checks != [] {
      var front := checks[..|checks| - 1];
      forall i | 0 <= i < |front| ensures front[i].0 != k {
        assert front[i] == checks[i];
      }
      CollectAbsent(front, k);
    }
  }

  /** With distinct fields, a field's entry is exactly its check's message. */
  lemma {:induction false} CollectLookup<K(!new)>(checks: seq<(K, Option<string>)>, i: nat)
    requires DistinctFields(checks) && i < |checks|
    ensures checks[i].0 in Collect(checks) <==> checks[i].1.Some?
    ensures checks[i].0 in Collect(checks) ==> Collect(checks)[checks[i].0] == checks[i].1.value
    decreases |checks|
  {
    var front := checks[..|checks| - 1];
    if i < |checks| - 1 {
      assert front[i] == checks[i];
      assert checks[i].0 != checks[|checks| - 1].0;
      CollectLookup(front, i);
    } else {
      forall j | 0 <= j < |front| ensures front[j].0 != checks[i].0 {
        assert front[j] == checks[j];
      }
      CollectAbsent(front, checks[i].0);
    }
  }

  /** The dictionary is empty exactly when no check produced a message. */
  lemma {:induction false} CollectEmpty<K(!new)>(checks: seq<(K, Option<string>)>)
    ensures |Collect(checks)| == 0 <==> forall i :: 0 <= i < |checks| ==> checks[i].1.None?
    decreases |checks|
  {
    if checks != [] {
      var front := checks[..|checks| - 1];
      var last := checks[|checks| - 1];
      CollectEmpty(front);
      if last.1.Some? {
        assert last.0 in Collect(checks);
      } else {
        assert Collect(checks) == Collect(front);
        forall i | 0 <= i < |front| ensures front[i] == checks[i] { }
      }
    }
  }

  /** `Collect` on two, three and five checks, written out. */
  lemma CollectTwo<K(!new)>(a: (K, Option<string>), b: (K, Option<string>))
    ensures Collect([a, b]) == PutError(PutError(map[], a.0, a.1), b.0, b.1)
  {
    CollectSnoc([], a);
    assert [] + [a] == [a];
    CollectSnoc([a], b);
    assert [a] + [b] == [a, b];
  }

  lemma CollectThree<K(!new)>(a: (K, Option<string>), b: (K, Option<string>), c: (K, Option<string>))
    ensures Collect([a, b, c]) == PutError(PutError(PutError(map[], a.0, a.1), b.0, b.1), c.0, c.1)
  {
    CollectTwo(a, b);
    CollectSnoc([a, b], c);
    assert [a, b] + [c] == [a, b, c];
  }

  lemma CollectFive<K(!new)>(a: (K, Option<string>), b: (K, Option<string>), c: (K, Option<string>),
                       d: (K, Option<string>), e: (K, Option<string>))
    ensures Collect([a, b, c, d, e])
         == PutError(PutError(PutError(PutError(PutError(map[], a.0, a.1), b.0, b.1), c.0, c.1), d.0, d.1), e.0, e.1)
  {
    CollectThree(a, b, c);
    CollectSnoc([a, b, c], d);
    assert [a, b, c] + [d] == [a, b, c, d];
    CollectSnoc([a, b, c, d], e);
    assert [a, b, c, d] + [e] == [a, b, c, d, e];
  }

  /** `CollectEmpty` on two, three and five checks. */
  lemma CollectEmptyTwo<K(!new)>(a: (K, Option<string>), b: (K, Option<string>))
    ensures |Collect([a, b])| == 0 <==> a.1.None? && b.1.None?
  {
    var checks := [a, b];
    CollectEmpty(checks);
    assert checks[0] == a && checks[1] == b;
  }

  lemma CollectEmptyThree<K(!new)>(a: (K, Option<string>), b: (K, Option<string>), c: (K, Option<string>))
    ensures |Collect([a, b, c])| == 0 <==> a.1.None? && b.1.None? && c.1.None?
  {
    var checks := [a, b, c];
    CollectEmpty(checks);
    assert checks[0] == a && checks[1] == b && checks[2] == c;
  }

  lemma CollectEmptyFive<K(!new)>(a: (K, Option<string>), b: (K, Option<string>), c: (K, Option<string>),
                                  d: (K, Option<string>), e: (K, Option<string>))
    ensures |Collect([a, b, c, d, e])| == 0 <==> a.1.None? && b.1.None? && c.1.None? && d.1.None? && e.1.None?
  {
    var checks := [a, b, c, d, e];
    CollectEmpty(checks);
    assert checks[0] == a && checks[1] == b && checks[2] == c && checks[3] == d && checks[4] == e;
  }
}
