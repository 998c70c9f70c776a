/** The presence test both request validators build their reports from:
    `check_field` appends a field name to the list of invalid fields when the
    name is not `in` the container (logic/validator.py:16-22,
    utils/validator.py:16-18). */
module FieldChecks {
  import opened PyValues

  /** An incoming request: its query parameters (a dict of strings) and its
      parsed body, which may be any JSON value. */
  datatype Request = Request(query: seq<(string, Json)>, data: Json)

  /** The list after checking `fields` in order against `container`, starting
      from `invalid`: each absent name is appended; an `in` test that raises
      ends the checks with that exception. */
  function Checked(invalid: seq<string>, container: Json, fields: seq<string>): Outcome<seq<string>>
    decreases |fields|
  {
    if fields == [] then Returned(invalid)
    else
      var present :- Contains(container, fields[0]);
      Checked(if present then invalid else invalid + [fields[0]], container, fields[1..])
  }

  /** `for field in fields: check_field(container, field)`, appending to
      `invalid`. */
  method CheckFields(invalid: seq<string>, container: Json, fields: seq<string>) returns (r: Outcome<seq<string>>)
    ensures r == Checked(invalid, container, fields)
  {
    var acc := invalid;
    var i := 0;
    while i < |fields|
      invariant 0 <= i <= |fields|
      invariant Checked(invalid, container, fields) == Checked(acc, container, fields[i..])
    {
      assert fields[i..][1..] == fields[i + 1..];
      var present := Contains(container, fields[i]);
      if present.Raised? {
        return Raised(present.exc);
      }
      if !present.value {
        acc := acc + [fields[i]];
      }
      i := i + 1;
    }
    assert fields[i..] == [];
    r := Returned(acc);
  }

  /** The names among `fields` that are not keys of `pairs`, in the order of
      `fields`. */
  function AbsentKeys(pairs: seq<(string, Json)>, fields: seq<string>): (r: seq<string>)
    ensures |r| <= |fields|
    ensures forall x :: x in r <==> x in fields && !HasKey(pairs, x)
  {
    if fields == [] then []
    else (if HasKey(pairs, fields[0]) then [] else [fields[0]]) + AbsentKeys(pairs, fields[1..])
  }

  /** Against a dict the checks never raise, and they append exactly the
      absent names in check order: presence is all that counts, whatever the
      value stored. */
  lemma {:induction false} CheckedOnDict(invalid: seq<string>, pairs: seq<(string, Json)>, fields: seq<string>)
    ensures Checked(invalid, JObj(pairs), fields) == Returned(invalid + AbsentKeys(pairs, fields))
    decreases |fields|
  {
    if fields != [] {
      var next := if HasKey(pairs, fields[0]) then invalid else invalid + [fields[0]];
      assert Contains(JObj(pairs), fields[0]) == Returned(HasKey(pairs, fields[0]));
      assert Checked(invalid, JObj(pairs), fields) == Checked(next, JObj(pairs), fields[1..]);
      CheckedOnDict(next, pairs, fields[1..]);
      var head := if HasKey(pairs, fields[0]) then [] else [fields[0]];
      assert next == invalid + head;
      assert AbsentKeys(pairs, fields) == head + AbsentKeys(pairs, fields[1..]);
      assert next + AbsentKeys(pairs, fields[1..]) == invalid + AbsentKeys(pairs, fields);
    } else {
      assert invalid + AbsentKeys(pairs, fields) == invalid;
    }
  }

  /** Against an empty dict every checked name is absent. */
  lemma {:induction false} AbsentFromEmpty(fields: seq<string>)
    ensures AbsentKeys([], fields) == fields
  {
    if fields != [] {
      AbsentFromEmpty(fields[1..]);
      assert !HasKey([], fields[0]);
      assert fields == [fields[0]] + fields[1..];
    }
  }

  predicate Distinct(xs: seq<string>) {
    forall i, j :: 0 <= i < j < |xs| ==> xs[i] != xs[j]
  }

  /** No name is reported twice when the checked names are distinct. */
  lemma {:induction false} AbsentKeysDistinct(pairs: seq<(string, Json)>, fields: seq<string>)
    requires Distinct(fields)
    ensures Distinct(AbsentKeys(pairs, fields))
  {
    if fields != [] {
      AbsentKeysDistinct(pairs, fields[1..]);
      var head := if HasKey(pairs, fields[0]) then [] else [fields[0]];
      var tail := AbsentKeys(pairs, fields[1..]);
      assert fields[0] !in fields[1..] by {
        forall k | 0 <= k < |fields[1..]| ensures fields[1..][k] != fields[0] {
          assert fields[1..][k] == fields[k + 1];
        }
      }
      assert fields[0] !in tail;
      forall i, j | 0 <= i < j < |head + tail| ensures (head + tail)[i] != (head + tail)[j] {
        if i < |head| {
          assert (head + tail)[j] in tail;
        }
      }
    }
  }

  /** Joined with ", ", the absent names give the empty string exactly when
      every checked name is present. */
  lemma ReportEmptyIffAllPresent(pairs: seq<(string, Json)>, fields: seq<string>)
    requires forall i :: 0 <= i < |fields| ==> fields[i] != ""
    ensures Join(AbsentKeys(pairs, fields), ", ") == "" <==> forall x :: x in fields ==> HasKey(pairs, x)
  {
    var absent := AbsentKeys(pairs, fields);
    forall i | 0 <= i < |absent| ensures absent[i] != "" {
      assert absent[i] in fields;
    }
    JoinEmptyIff(absent, ", ");
    if absent != [] {
      assert absent[0] in fields && !HasKey(pairs, absent[0]);
    }
  }
}
