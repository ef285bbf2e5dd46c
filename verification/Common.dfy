/** Value types and sequence facts shared by the component models. */
module Common {

  datatype Option<+T> = None | Some(value: T)

  datatype Result<+T> = Ok(value: T) | Err(error: string)

  type Bytes = seq<bv8>

  /** Concatenation of the parts in order, as `flatten().collect()` builds it. */
  function Concat(parts: seq<Bytes>): Bytes {
    if parts == [] then [] else parts[0] + Concat(parts[1..])
  }

  lemma {:induction false} ConcatSnoc(parts: seq<Bytes>, last: Bytes)
    ensures Concat(parts + [last]) == Concat(parts) + last
  {
    if parts == [] {
      assert parts + [last] == [last];
      assert Concat([last]) == last + Concat([]);
    } else {
      assert (parts + [last])[1..] == parts[1..] + [last];
      ConcatSnoc(parts[1..], last);
    }
  }

  // ---------------------------------------------------------------- a flag that some steps raise and others lower

  /** Step e raised the flag and no step since, before n, lowered it. */
  ghost predicate UpSince(ups: seq<bool>, downs: seq<bool>, e: nat, n: nat) {
    e < n <= |ups| && n <= |downs| && ups[e] && forall j :: e < j < n ==> !downs[j]
  }

  ghost predicate Raised(ups: seq<bool>, downs: seq<bool>, n: nat) {
    exists e: nat :: UpSince(ups, downs, e, n)
  }

  ghost predicate Follows(flags: seq<bool>, ups: seq<bool>, downs: seq<bool>) {
    && |flags| == |ups| + 1 == |downs| + 1 && !flags[0]
    && forall i, k :: 0 <= i < |ups| && k == i + 1 ==> flags[k] == (ups[i] || (flags[i] && !downs[i]))
  }

  lemma RaisedNext(ups: seq<bool>, downs: seq<bool>, m: nat, n: nat)
    requires n == m + 1 <= |ups| == |downs|
    ensures Raised(ups, downs, n) <==> ups[m] || (Raised(ups, downs, m) && !downs[m])
  {
    if ups[m] {
      assert UpSince(ups, downs, m, n);
    } else if Raised(ups, downs, m) && !downs[m] {
      var e: nat :| UpSince(ups, downs, e, m);
      assert UpSince(ups, downs, e, n);
    } else if Raised(ups, downs, n) {
      var e: nat :| UpSince(ups, downs, e, n);
      assert UpSince(ups, downs, e, m);
    }
  }

  /** A flag that starts down and follows its steps is up exactly when it was raised and not lowered since. */
  lemma {:induction false} UpExactlyWhen(flags: seq<bool>, ups: seq<bool>, downs: seq<bool>, n: nat)
    requires Follows(flags, ups, downs) && n < |flags|
    ensures flags[n] <==> Raised(ups, downs, n)
  {
    if n == 0 {
    } else {
      UpExactlyWhen(flags, ups, downs, n - 1);
      RaisedNext(ups, downs, n - 1, n);
    }
  }
}
