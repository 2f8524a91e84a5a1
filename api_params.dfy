// The parameter-completeness rule shared by the datasource and variable endpoints: every
// parameter the type declares must be submitted, and a required one with a non-empty value.
module ApiParams {
  import opened Wrappers
  import opened Registry

  /** A submitted parameter. */
  datatype KeyValue = KeyValue(key: string, value: string)

  /** The position of the first submitted parameter with this key. */
  function FirstWithKey(submitted: seq<KeyValue>, key: string): (r: Option<nat>)
    ensures r.None? <==> forall j :: 0 <= j < |submitted| ==> submitted[j].key != key
    ensures r.Some? ==> (r.value < |submitted| && submitted[r.value].key == key
                         && forall j :: 0 <= j < r.value ==> submitted[j].key != key)
    decreases |submitted|
  {
    if |submitted| == 0 then None
    else if submitted[0].key == key then Some(0)
    else match FirstWithKey(submitted[1..], key)
      case None => None
      case Some(j) => Some(j + 1)
  }

  /** A declared parameter is satisfied when it is submitted and, if required, the first
      submission of its key has a non-empty value. */
  predicate Satisfied(p: Param, submitted: seq<KeyValue>)
  {
    match FirstWithKey(submitted, p.key)
    case None => false
    case Some(j) => !(p.required && submitted[j].value == "")
  }

  predicate Complete(declared: seq<Param>, submitted: seq<KeyValue>)
  {
    forall i :: 0 <= i < |declared| ==> Satisfied(declared[i], submitted)
  }

  /** The check loop: for each declared parameter, the first submitted one with its key. */
  method CheckParams(declared: seq<Param>, submitted: seq<KeyValue>) returns (ok: bool)
    ensures ok == Complete(declared, submitted)
  {
    var i := 0;
    while i < |declared|
      invariant 0 <= i <= |declared|
      invariant forall k :: 0 <= k < i ==> Satisfied(declared[k], submitted)
    {
      var p := declared[i];
      var matched := false;
      var j := 0;
      while j < |submitted|
        invariant 0 <= j <= |submitted|
        invariant forall k :: 0 <= k < j ==> submitted[k].key != p.key
        invariant matched ==> Satisfied(p, submitted)
        decreases |submitted| - j, if matched then 0 else 1
      {
        if submitted[j].key == p.key {
          if p.required && submitted[j].value == "" {
            return false;
          }
          matched := true;
          break;
        }
        j := j + 1;
      }
      if !matched {
        return false;
      }
      i := i + 1;
    }
    return true;
  }

  /** Extra submitted parameters, declared or not, never spoil a complete submission. */
  lemma {:induction false} CompleteExtra(declared: seq<Param>, submitted: seq<KeyValue>, extra: seq<KeyValue>)
    requires Complete(declared, submitted)
    ensures Complete(declared, submitted + extra)
  {
    forall i | 0 <= i < |declared|
      ensures Satisfied(declared[i], submitted + extra)
    {
      FirstKeyKept(submitted, extra, declared[i].key);
    }
  }

  lemma FirstKeyKept(submitted: seq<KeyValue>, extra: seq<KeyValue>, key: string)
    requires FirstWithKey(submitted, key).Some?
    ensures FirstWithKey(submitted + extra, key) == FirstWithKey(submitted, key)
  {
    var j := FirstWithKey(submitted, key).value;
    assert forall k :: 0 <= k <= j ==> (submitted + extra)[k] == submitted[k];
  }

  lemma FirstIsOnly(submitted: seq<KeyValue>, key: string, j: nat)
    requires DistinctKeys(submitted)
    requires j < |submitted| && submitted[j].key == key
    ensures FirstWithKey(submitted, key) == Some(j)
  {
  }

  /** Some submission of the parameter's key, non-empty if the parameter is required. */
  predicate Present(p: Param, submitted: seq<KeyValue>)
  {
    exists j :: 0 <= j < |submitted| && submitted[j].key == p.key
                && (p.required ==> submitted[j].value != "")
  }

  predicate DistinctKeys(submitted: seq<KeyValue>)
  {
    forall a, b :: 0 <= a < b < |submitted| ==> submitted[a].key != submitted[b].key
  }

  /** When no key is submitted twice, completeness reads plainly: every declared key is
      among the submitted ones, with a non-empty value if it is required. */
  lemma CompleteDistinct(declared: seq<Param>, submitted: seq<KeyValue>)
    requires DistinctKeys(submitted)
    ensures Complete(declared, submitted) <==>
      forall i :: 0 <= i < |declared| ==> Present(declared[i], submitted)
  {
    forall i | 0 <= i < |declared|
      ensures Satisfied(declared[i], submitted) <==> Present(declared[i], submitted)
    {
      SatisfiedDistinct(declared[i], submitted);
    }
  }

  lemma SatisfiedDistinct(p: Param, submitted: seq<KeyValue>)
    requires DistinctKeys(submitted)
    ensures Satisfied(p, submitted) <==> Present(p, submitted)
  {
    if Present(p, submitted) {
      var j :| 0 <= j < |submitted| && submitted[j].key == p.key
               && (p.required ==> submitted[j].value != "");
      FirstIsOnly(submitted, p.key, j);
    }
  }
}
