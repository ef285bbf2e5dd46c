/** Bounded admission of peer JSON: one visitor pass that spends a shared node counter, from a syntax tree. */
module JsonAdmission {
  import opened Common
  import opened JsonTree

  const MAX_TEXT_BYTES: nat := 1024 * 1024
  const MAX_JSON_NODES: nat := 65_536
  const MAX_JSON_DEPTH: nat := 64

  /** A node is one visit, and so is each key of an object, repeated or not. */
  function OwnVisits(n: Node): nat {
    if n.Obj? then 1 + |n.keys| else 1
  }

  /** Values plus keys, counting the discarded ones. */
  function Visits(n: Node): nat { Cost(OwnVisits, n) }

  /** Visits are counted by what the tree holds: its values, and the keys of its objects. */
  lemma {:induction false} VisitsAreValuesAndKeys(n: Node)
    ensures Visits(n) == ValueCount(n) + KeyCount(n)
    decreases n, 1
  {
    if n.Leaf? {
    } else {
      VisitsOfAll(n.items);
    }
  }

  lemma {:induction false} VisitsOfAll(items: seq<Node>)
    ensures CostAll(OwnVisits, items) == ValueCountAll(items) + KeyCountAll(items)
    decreases items, 0
  {
    if items == [] {
    } else {
      VisitsAreValuesAndKeys(items[0]);
      VisitsOfAll(items[1..]);
    }
  }

  /** What a visitor with `remaining` visits left accepts at nesting `depth`. */
  ghost predicate Affordable(n: Node, depth: nat, remaining: int) {
    Visits(n) <= remaining && depth + Depth(n) <= MAX_JSON_DEPTH
  }

  class Counter {
    var remaining: nat

    constructor (limit: nat)
      ensures remaining == limit
    {
      remaining := limit;
    }

    /** One visit, refused when none is left. */
    method Spend() returns (ok: bool)
      modifies this
      ensures ok == (old(remaining) > 0)
      ensures remaining == if ok then old(remaining) - 1 else old(remaining)
    {
      if remaining == 0 {
        return false;
      }
      remaining := remaining - 1;
      return true;
    }
  }

  /** A visit succeeds exactly when the whole tree is affordable, and then spends exactly its visits. */
  method Visit(n: Node, depth: nat, counter: Counter) returns (r: Result<Value>)
    requires WellFormed(n) && depth <= MAX_JSON_DEPTH
    modifies counter
    ensures r.Ok? <==> Affordable(n, depth, old(counter.remaining))
    ensures r.Ok? ==> Denotes(n, r.value) && counter.remaining == old(counter.remaining) - Visits(n)
    decreases n, 1
  {
    var ok := counter.Spend();
    if !ok {
      return Err("JSON node budget exceeded");
    }
    match n
    case Leaf(scalar) => r := Ok(Plain(scalar));
    case Arr(items) => r := VisitSeq(n, depth, counter);
    case Obj(keys, items) => r := VisitMap(n, depth, counter);
  }

  /** What the loops keep after i children: each fitted, and the counter is down by their visits and i times `each`. */
  ghost predicate Visited(n: Node, i: nat, depth: nat, each: nat, total: nat, remaining: nat)
    requires !n.Leaf? && i <= |n.items|
  {
    && (forall j :: 0 <= j < i ==> depth + 1 + Depth(n.items[j]) <= MAX_JSON_DEPTH)
    && remaining + i * each + CostAll(OwnVisits, n.items[..i]) == total
  }

  lemma VisitedNext(n: Node, i: nat, depth: nat, each: nat, total: nat, remaining: nat, left: nat)
    requires !n.Leaf? && i < |n.items| && Visited(n, i, depth, each, total, remaining)
    requires Affordable(n.items[i], depth + 1, remaining - each) && left == remaining - each - Visits(n.items[i])
    ensures Visited(n, i + 1, depth, each, total, left)
  {
    CostNext(OwnVisits, n.items, i);
    assert (i + 1) * each == i * each + each;
  }

  /** If the next child is not affordable, the whole was not. */
  lemma ChildMisfits(n: Node, i: nat, depth: nat, each: nat, total: nat, remaining: nat)
    requires WellFormed(n) && !n.Leaf? && i < |n.items| && Visited(n, i, depth, each, total, remaining)
    requires each == (if n.Obj? then 1 else 0) && !Affordable(n.items[i], depth + 1, remaining - each)
    ensures !Affordable(n, depth, total + 1)
  {
    CostNext(OwnVisits, n.items, i);
    DepthOfItem(n.items, i);
  }

  lemma AllVisited(n: Node, depth: nat, each: nat, total: nat, remaining: nat)
    requires WellFormed(n) && !n.Leaf? && Visited(n, |n.items|, depth, each, total, remaining)
    requires each == (if n.Obj? then 1 else 0) && depth < MAX_JSON_DEPTH
    ensures Affordable(n, depth, total + 1) && remaining + Visits(n) == total + 1
  {
    assert n.items[..|n.items|] == n.items;
    DepthAllBound(n.items, MAX_JSON_DEPTH - depth - 1);
  }

  method VisitSeq(n: Node, depth: nat, counter: Counter) returns (r: Result<Value>)
    requires n.Arr? && WellFormed(n) && depth <= MAX_JSON_DEPTH
    modifies counter
    ensures r.Ok? <==> Affordable(n, depth, old(counter.remaining) + 1)
    ensures r.Ok? ==> Denotes(n, r.value) && counter.remaining + Visits(n) == old(counter.remaining) + 1
    decreases n, 0
  {
    if depth >= MAX_JSON_DEPTH {
      return Err("JSON depth budget exceeded");
    }
    var values: seq<Value> := [];
    for i := 0 to |n.items|
      invariant |values| == i && DenoteAll(n.items, values)
      invariant Visited(n, i, depth, 0, old(counter.remaining), counter.remaining)
    {
      ghost var before := counter.remaining;
      var v := Visit(n.items[i], depth + 1, counter);
      if v.Err? {
        ChildMisfits(n, i, depth, 0, old(counter.remaining), before);
        return Err(v.error);
      }
      VisitedNext(n, i, depth, 0, old(counter.remaining), before, counter.remaining);
      values := values + [v.value];
    }
    AllVisited(n, depth, 0, old(counter.remaining), counter.remaining);
    r := Ok(Array(values));
  }

  /** An entry spends one visit on its key before its value is visited. */
  method VisitEntry(n: Node, depth: nat, counter: Counter) returns (r: Result<Value>)
    requires WellFormed(n) && depth <= MAX_JSON_DEPTH
    modifies counter
    ensures r.Ok? <==> Affordable(n, depth, old(counter.remaining) - 1)
    ensures r.Ok? ==> Denotes(n, r.value) && counter.remaining == old(counter.remaining) - 1 - Visits(n)
    decreases n, 2
  {
    var ok := counter.Spend();
    if !ok {
      return Err("JSON node budget exceeded");
    }
    r := Visit(n, depth, counter);
  }

  method VisitMap(n: Node, depth: nat, counter: Counter) returns (r: Result<Value>)
    requires n.Obj? && WellFormed(n) && depth <= MAX_JSON_DEPTH
    modifies counter
    ensures r.Ok? <==> Affordable(n, depth, old(counter.remaining) + 1)
    ensures r.Ok? ==> Denotes(n, r.value) && counter.remaining + Visits(n) == old(counter.remaining) + 1
    decreases n, 0
  {
    if depth >= MAX_JSON_DEPTH {
      return Err("JSON depth budget exceeded");
    }
    var members: map<Bytes, Value> := map[];
    ghost var values: seq<Value> := [];
    for i := 0 to |n.items|
      invariant |values| == i && DenoteAll(n.items, values) && members == Inserted(n.keys[..i], values)
      invariant Visited(n, i, depth, 1, old(counter.remaining), counter.remaining)
    {
      ghost var before := counter.remaining;
      var v := VisitEntry(n.items[i], depth + 1, counter);
      if v.Err? {
        ChildMisfits(n, i, depth, 1, old(counter.remaining), before);
        return Err(v.error);
      }
      VisitedNext(n, i, depth, 1, old(counter.remaining), before, counter.remaining);
      InsertedPush(n.keys[..i], values, n.keys[i], v.value);
      assert n.keys[..i + 1] == n.keys[..i] + [n.keys[i]];
      members, values := members[n.keys[i] := v.value], values + [v.value];
    }
    AllVisited(n, depth, 1, old(counter.remaining), counter.remaining);
    assert n.keys[..|n.keys|] == n.keys;
    ObjectDenoted(n, values);
    r := Ok(Object(members));
  }

  /**
   Admission of a text of `length` bytes that reads as the tree `n`: accepted exactly when the text, the visits and the
   nesting are within their limits, and the value keeps the last entry of each repeated key.
   */
  method ParseJson(n: Node, length: nat) returns (r: Result<Value>)
    requires WellFormed(n)
    ensures r.Ok? <==> length <= 1024 * 1024 && ValueCount(n) + KeyCount(n) <= 65_536 && Depth(n) <= 64
    ensures r.Ok? ==> Denotes(n, r.value)
  {
    if length > MAX_TEXT_BYTES {
      return Err("Ingress JSON exceeds 1 MiB");
    }
    var counter := new Counter(MAX_JSON_NODES);
    r := Visit(n, 0, counter);
    VisitsAreValuesAndKeys(n);
    if r.Err? {
      r := Err("Invalid ingress JSON or resource budget exceeded");
    }
  }
}
