/**
 Canonical JSON of a call's keyed fields (src/runtime/keys.ts, canonical and sortDeep): two field sets have
 one text exactly when they are equal up to the order of object members, `__proto__` members aside.
 */
module Canonical {
  import opened Options
  import opened Keys

  /** A JSON value; an object's members in the order the program listed them. */
  datatype Doc = Leaf(text: string) | Array(elems: seq<Doc>) | Object(members: seq<Member>)

  datatype Member = Member(name: string, value: Doc)

  const PROTO: string := "__proto__"

  /* ----- the order of names ----- */

  predicate Less(a: string, b: string) {
    b != "" && (a == "" || a[0] < b[0] || (a[0] == b[0] && Less(a[1..], b[1..])))
  }

  lemma {:induction false} LessIsTotal(a: string, b: string)
    ensures a == b || Less(a, b) || Less(b, a)
    ensures !(Less(a, b) && Less(b, a)) && (a == b ==> !Less(a, b))
  {
    if a != "" && b != "" && a[0] == b[0] {
      LessIsTotal(a[1..], b[1..]);
      assert a[1..] == b[1..] ==> a == b by { assert a == [a[0]] + a[1..] && b == [b[0]] + b[1..]; }
    }
  }

  lemma {:induction false} LessIsTransitive(a: string, b: string, c: string)
    requires Less(a, b) && Less(b, c)
    ensures Less(a, c)
  {
    if a != "" && a[0] == b[0] == c[0] { LessIsTransitive(a[1..], b[1..], c[1..]); }
  }

  /* ----- sortDeep ----- */

  function Insert(ms: seq<Member>, m: Member): seq<Member> {
    if ms == [] || Less(m.name, ms[0].name) then [m] + ms else [ms[0]] + Insert(ms[1..], m)
  }

  function Order(ms: seq<Member>): seq<Member> {
    if ms == [] then [] else Insert(Order(ms[1..]), ms[0])
  }

  function Kept(ms: seq<Member>): seq<Member> {
    if ms == [] then [] else (if ms[0].name == PROTO then [] else [ms[0]]) + Kept(ms[1..])
  }

  function SortDeep(d: Doc): Doc
    decreases d
  {
    match d
    case Leaf(_) => d
    case Array(elems) => Array(seq(|elems|, i requires 0 <= i < |elems| => SortDeep(elems[i])))
    case Object(members) =>
      Object(Order(Kept(seq(|members|,
        i requires 0 <= i < |members| => Member(members[i].name, SortDeep(members[i].value))))))
  }

  /* ----- equality up to member order ----- */

  /** Names of one object differ, at every depth. */
  predicate WellFormed(d: Doc)
    decreases d
  {
    match d
    case Leaf(_) => true
    case Array(elems) => forall i :: 0 <= i < |elems| ==> WellFormed(elems[i])
    case Object(members) => Distinct(members) && forall i :: 0 <= i < |members| ==> WellFormed(members[i].value)
  }

  predicate Distinct(ms: seq<Member>) { forall i, j :: 0 <= i < j < |ms| ==> ms[i].name != ms[j].name }

  function Find(ms: seq<Member>, name: string): Option<Doc> {
    if ms == [] then Nothing else if ms[0].name == name then Just(ms[0].value) else Find(ms[1..], name)
  }

  ghost predicate Same(a: Doc, b: Doc)
    decreases a
  {
    match a
    case Leaf(_) => a == b
    case Array(elems) => b.Array? && |elems| == |b.elems| && forall i :: 0 <= i < |elems| ==> Same(elems[i], b.elems[i])
    case Object(members) =>
      b.Object?
      && (forall name: string :: name != PROTO ==> (Find(members, name).Just? <==> Find(b.members, name).Just?))
      && (forall i :: 0 <= i < |members| && members[i].name != PROTO && Find(b.members, members[i].name).Just? ==>
           Same(members[i].value, Find(b.members, members[i].name).value))
  }

  /* ----- sorting keeps what members say ----- */

  predicate Sorted(ms: seq<Member>) { forall i, j :: 0 <= i < j < |ms| ==> Less(ms[i].name, ms[j].name) }

  lemma {:induction false} FindIs(ms: seq<Member>, name: string)
    ensures Find(ms, name).Just? ==> Member(name, Find(ms, name).value) in ms
    ensures Find(ms, name).Nothing? ==> forall i :: 0 <= i < |ms| ==> ms[i].name != name
  {
    if ms != [] && ms[0].name != name { FindIs(ms[1..], name); }
  }

  lemma {:induction false} FindsNone(ms: seq<Member>, name: string)
    requires forall i :: 0 <= i < |ms| ==> ms[i].name != name
    ensures Find(ms, name).Nothing?
  {
    if ms != [] { FindsNone(ms[1..], name); }
  }

  lemma {:induction false} InsertFinds(ms: seq<Member>, m: Member, name: string)
    requires Find(ms, m.name).Nothing?
    ensures Find(Insert(ms, m), name) == if name == m.name then Just(m.value) else Find(ms, name)
  {
    if ms == [] || Less(m.name, ms[0].name) {
      assert ([m] + ms)[1..] == ms;
    } else {
      InsertFinds(ms[1..], m, name);
      assert ([ms[0]] + Insert(ms[1..], m))[1..] == Insert(ms[1..], m);
    }
  }

  lemma {:induction false} InsertHas(ms: seq<Member>, m: Member)
    ensures forall x :: x in Insert(ms, m) <==> x in ms || x == m
  {
    if ms != [] && !Less(m.name, ms[0].name) {
      InsertHas(ms[1..], m);
      assert ms == [ms[0]] + ms[1..];
    }
  }

  predicate Before(name: string, ms: seq<Member>) { forall x :: x in ms ==> Less(name, x.name) }

  lemma SortedCons(m: Member, ms: seq<Member>)
    requires Sorted(ms) && Before(m.name, ms)
    ensures Sorted([m] + ms)
  {
    var all := [m] + ms;
    forall i, j | 0 <= i < j < |all| ensures Less(all[i].name, all[j].name) {
      assert ms[j - 1] in ms;
    }
  }

  lemma SortedHead(ms: seq<Member>)
    requires Sorted(ms) && ms != []
    ensures Sorted(ms[1..]) && Before(ms[0].name, ms[1..])
  {}

  lemma {:induction false} InsertSorts(ms: seq<Member>, m: Member)
    requires Sorted(ms) && Find(ms, m.name).Nothing?
    ensures Sorted(Insert(ms, m))
  {
    hide Sorted;
    if ms == [] {
      SortedCons(m, ms);
      assert [m] + ms == [m];
    } else if Less(m.name, ms[0].name) {
      SortedHead(ms);
      forall x | x in ms ensures Less(m.name, x.name) {
        if x in ms[1..] { LessIsTransitive(m.name, ms[0].name, x.name); }
      }
      SortedCons(m, ms);
    } else {
      SortedHead(ms);
      LessIsTotal(m.name, ms[0].name);
      InsertSorts(ms[1..], m);
      InsertHas(ms[1..], m);
      SortedCons(ms[0], Insert(ms[1..], m));
    }
  }

  lemma {:induction false} OrderSorts(ms: seq<Member>)
    requires Distinct(ms)
    ensures Sorted(Order(ms)) && forall name: string :: Find(Order(ms), name) == Find(ms, name)
  {
    if ms != [] {
      OrderSorts(ms[1..]);
      FindsNone(ms[1..], ms[0].name);
      InsertSorts(Order(ms[1..]), ms[0]);
      forall name: string ensures Find(Order(ms), name) == Find(ms, name) { InsertFinds(Order(ms[1..]), ms[0], name); }
    }
  }

  /** A sorted member list is determined by what it says. */
  lemma {:induction false} SortedIsUnique(p: seq<Member>, q: seq<Member>)
    requires Sorted(p) && Sorted(q) && forall name: string :: Find(p, name) == Find(q, name)
    ensures p == q
  {
    if p == [] {
      assert q != [] ==> Find(q, q[0].name).Just?;
    } else {
      FirstIsLeast(p, q);
      FirstIsLeast(q, p);
      LessIsTotal(p[0].name, q[0].name);
      assert p[0].name == q[0].name;
      SortedHead(p);
      SortedHead(q);
      forall name: string ensures Find(p[1..], name) == Find(q[1..], name) {
        NotBefore(p[1..], p[0].name);
        NotBefore(q[1..], q[0].name);
        assert Find(p, name) == Find(q, name);
      }
      SortedIsUnique(p[1..], q[1..]);
      assert p == [p[0]] + p[1..] && q == [q[0]] + q[1..];
    }
  }

  lemma FirstIsLeast(p: seq<Member>, q: seq<Member>)
    requires Sorted(q) && p != [] && Find(q, p[0].name) == Find(p, p[0].name)
    ensures q != [] && (p[0].name == q[0].name || Less(q[0].name, p[0].name))
  {
    FindIs(q, p[0].name);
    var x := Member(p[0].name, Find(q, p[0].name).value);
    var i :| 0 <= i < |q| && q[i] == x;
  }

  lemma NotBefore(ms: seq<Member>, name: string)
    requires Before(name, ms)
    ensures Find(ms, name).Nothing?
  {
    forall i | 0 <= i < |ms| ensures ms[i].name != name {
      assert ms[i] in ms;
      LessIsTotal(name, ms[i].name);
    }
    FindsNone(ms, name);
  }

  lemma {:induction false} KeptKeeps(ms: seq<Member>)
    requires Distinct(ms)
    ensures Distinct(Kept(ms))
    ensures forall x :: x in Kept(ms) ==> x in ms
    ensures forall name: string :: Find(Kept(ms), name) == if name == PROTO then Nothing else Find(ms, name)
  {
    if ms != [] {
      var rest := Kept(ms[1..]);
      assert Distinct(ms[1..]);
      KeptKeeps(ms[1..]);
      assert ms == [ms[0]] + ms[1..];
      if ms[0].name == PROTO {
        assert Kept(ms) == rest;
        FindsNone(ms[1..], PROTO);
      } else {
        var all := [ms[0]] + rest;
        assert Kept(ms) == all && all[1..] == rest;
        forall j | 0 <= j < |rest| ensures rest[j].name != ms[0].name {
          assert rest[j] in ms[1..];
        }
      }
    }
  }

  /** Sorting the values of members. */
  function Deep(ms: seq<Member>): (r: seq<Member>)
    ensures |r| == |ms| && forall i :: 0 <= i < |ms| ==> r[i] == Member(ms[i].name, SortDeep(ms[i].value))
  {
    seq(|ms|, i requires 0 <= i < |ms| => Member(ms[i].name, SortDeep(ms[i].value)))
  }

  lemma {:induction false} DeepFinds(ms: seq<Member>, name: string)
    ensures Find(Deep(ms), name) == if Find(ms, name).Nothing? then Nothing else Just(SortDeep(Find(ms, name).value))
  {
    if ms != [] {
      assert Deep(ms)[1..] == Deep(ms[1..]);
      DeepFinds(ms[1..], name);
    }
  }

  /** What a sorted object says of a name: the sorted value, but for `__proto__`. */
  lemma SortedObject(ms: seq<Member>, name: string)
    requires Distinct(ms)
    ensures SortDeep(Object(ms)) == Object(Order(Kept(Deep(ms)))) && Sorted(SortDeep(Object(ms)).members)
    ensures Find(SortDeep(Object(ms)).members, name) ==
            if name == PROTO || Find(ms, name).Nothing? then Nothing else Just(SortDeep(Find(ms, name).value))
  {
    assert Deep(ms) == seq(|ms|, i requires 0 <= i < |ms| => Member(ms[i].name, SortDeep(ms[i].value)));
    KeptKeeps(Deep(ms));
    OrderSorts(Kept(Deep(ms)));
    DeepFinds(ms, name);
  }

  /* ----- one text for equal values, and only for them ----- */

  lemma {:induction false} SameSortsSame(a: Doc, b: Doc)
    requires WellFormed(a) && WellFormed(b) && Same(a, b)
    ensures SortDeep(a) == SortDeep(b)
    decreases a
  {
    match a
    case Leaf(_) =>
    case Array(elems) =>
      forall i | 0 <= i < |elems| ensures SortDeep(elems[i]) == SortDeep(b.elems[i]) {
        SameSortsSame(elems[i], b.elems[i]);
      }
    case Object(members) =>
      forall name: string ensures Find(SortDeep(a).members, name) == Find(SortDeep(b).members, name) {
        SortedObject(members, name);
        SortedObject(b.members, name);
        if name != PROTO && Find(members, name).Just? { SameMember(members, b.members, name); }
      }
      SortedObject(members, "");
      SortedObject(b.members, "");
      SortedIsUnique(SortDeep(a).members, SortDeep(b).members);
  }

  lemma {:induction false} SameMember(ms: seq<Member>, ns: seq<Member>, name: string)
    requires WellFormed(Object(ms)) && WellFormed(Object(ns)) && Same(Object(ms), Object(ns))
    requires name != PROTO && Find(ms, name).Just?
    ensures Find(ns, name).Just? && SortDeep(Find(ms, name).value) == SortDeep(Find(ns, name).value)
    decreases Object(ms), 0
  {
    FindIs(ms, name);
    FindIs(ns, name);
    var x, y := Member(name, Find(ms, name).value), Member(name, Find(ns, name).value);
    var i :| 0 <= i < |ms| && ms[i] == x;
    var j :| 0 <= j < |ns| && ns[j] == y;
    assert ms[i].value == x.value && ns[j].value == y.value;
    SameSortsSame(ms[i].value, ns[j].value);
  }

  lemma {:induction false} SortedSameIsSame(a: Doc, b: Doc)
    requires WellFormed(a) && WellFormed(b) && SortDeep(a) == SortDeep(b)
    ensures Same(a, b)
    decreases a
  {
    match a
    case Leaf(_) =>
    case Array(elems) =>
      forall i | 0 <= i < |elems| ensures Same(elems[i], b.elems[i]) {
        assert SortDeep(a).elems[i] == SortDeep(b).elems[i];
        SortedSameIsSame(elems[i], b.elems[i]);
      }
    case Object(members) =>
      forall name: string | name != PROTO
        ensures Find(members, name).Just? <==> Find(b.members, name).Just?
        ensures Find(members, name).Just? ==>
                  SortDeep(Find(members, name).value) == SortDeep(Find(b.members, name).value)
      {
        SortedObject(members, name);
        SortedObject(b.members, name);
      }
      forall i | 0 <= i < |members| && members[i].name != PROTO && Find(b.members, members[i].name).Just?
        ensures Same(members[i].value, Find(b.members, members[i].name).value)
      {
        FindsAt(members, i);
        FindIsWellFormed(b.members, members[i].name);
        SortedSameIsSame(members[i].value, Find(b.members, members[i].name).value);
      }
  }

  lemma {:induction false} FindsAt(ms: seq<Member>, i: nat)
    requires Distinct(ms) && i < |ms|
    ensures Find(ms, ms[i].name) == Just(ms[i].value)
  {
    if i > 0 { FindsAt(ms[1..], i - 1); }
  }

  lemma FindIsWellFormed(ms: seq<Member>, name: string)
    requires WellFormed(Object(ms)) && Find(ms, name).Just?
    ensures WellFormed(Find(ms, name).value)
  {
    FindIs(ms, name);
    var x := Member(name, Find(ms, name).value);
    var i :| 0 <= i < |ms| && ms[i] == x;
    assert ms[i].value == x.value;
  }

  /** A JSON text determines its value, and escapes every control character (RFC 8259, section 7). */
  ghost predicate IsText(text: Doc -> string) {
    (forall a, b :: text(a) == text(b) ==> a == b) && forall a :: NulFree(text(a))
  }

  /**
   With a hash that does not collide on the two texts, calls at one position have one key exactly when
   their prompts are equal and their fields are equal up to the order of members and `__proto__`.
   */
  lemma FieldsIdentifyKeys(text: Doc -> string, h: string -> string, branch: Path, index: nat, p: string, q: string,
      a: Doc, b: Doc)
    requires IsText(text) && IsHash(h) && WellFormed(a) && WellFormed(b)
    requires CollisionFree(h, {Chain(branch, index, p, text(SortDeep(a))), Chain(branch, index, q, text(SortDeep(b)))})
    ensures KeyDigest(h, Chain(branch, index, p, text(SortDeep(a)))) ==
              KeyDigest(h, Chain(branch, index, q, text(SortDeep(b))))
            <==> p == q && Same(a, b)
  {
    hide CollisionFree, KeyDigest, IsHash, Same, SortDeep, WellFormed;
    var k, l := Chain(branch, index, p, text(SortDeep(a))), Chain(branch, index, q, text(SortDeep(b)));
    DigestsIdentifyKeys(h, k, l);
    if Same(a, b) { SameSortsSame(a, b); }
    if SortDeep(a) == SortDeep(b) { SortedSameIsSame(a, b); }
  }

  /** So two schemas that differ only in a property named `__proto__` share a key. */
  lemma ProtoIsNotKeyed(value: Doc, other: Doc)
    ensures SortDeep(Object([Member(PROTO, value)])) == SortDeep(Object([Member(PROTO, other)])) == Object([])
  {
    assert forall ms: seq<Member> :: |ms| == 1 && ms[0].name == PROTO ==> Kept(ms) == Kept(ms[1..]) == [];
  }
}
