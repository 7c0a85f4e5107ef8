/**
 Call keys (src/runtime/keys.ts). A branch of a run is a path of lineage nodes; every agent call has
 a key that names its position (or the author's explicit name). The program hashes an injective-looking
 text of that position; this file proves that text uniquely decodable, and hence that a hash without
 collisions on the texts of a run distinguishes all its keys.
 */
module Keys {
  /** Which primitive a lineage node belongs to: a fan-out call, or one of its children. */
  datatype Kind = Parallel | Pipeline | Branch | Item | Stage

  datatype Node = Node(kind: Kind, index: nat)

  /** A branch, as the nodes from the root body down to it. */
  type Path = seq<Node>

  datatype Key =
    | Chain(branch: Path, index: nat, prompt: string, fields: string)
    | Explicit(name: string)

  const KEY_VERSION := "v5"

  function KindName(k: Kind): string {
    match k
    case Parallel => "parallel"
    case Pipeline => "pipeline"
    case Branch => "branch"
    case Item => "item"
    case Stage => "stage"
  }

  predicate NulFree(s: string) { '\0' !in s }

  /** The shape of a hex digest: 64 characters, none of them NUL. */
  predicate IsDigest(s: string) { |s| == 64 && NulFree(s) }

  function Digit(d: nat): char
    requires d < 10
  {
    '0' + d as char
  }

  /** String(index) for a non-negative integer. */
  function Decimal(n: nat): (s: string)
    ensures |s| > 0 && NulFree(s)
  {
    if n < 10 then [Digit(n)] else Decimal(n / 10) + [Digit(n % 10)]
  }

  function DecimalValue(s: string): int {
    if s == [] then 0 else DecimalValue(s[..|s| - 1]) * 10 + (s[|s| - 1] as int - '0' as int)
  }

  lemma {:induction false} DecimalRoundTrip(n: nat)
    ensures DecimalValue(Decimal(n)) == n
  {
    var s := Decimal(n);
    if n < 10 {
      assert s[..0] == [];
    } else {
      DecimalRoundTrip(n / 10);
      assert s[..|s| - 1] == Decimal(n / 10);
    }
  }

  /** What is hashed for each kind of key. */
  datatype Preimage =
    | RootText
    | BranchText(parent: string, kind: Kind, index: nat)
    | AgentText(parent: string, index: nat, prompt: string, fields: string)
    | ExplicitText(name: string)

  /** Parents are digests, and canonical JSON (RFC 8259, section 7) escapes every control character. */
  predicate WellFormed(p: Preimage) {
    match p
    case RootText => true
    case BranchText(parent, _, _) => IsDigest(parent)
    case AgentText(parent, _, _, fields) => IsDigest(parent) && NulFree(fields)
    case ExplicitText(_) => true
  }

  function Encode(p: Preimage): string {
    match p
    case RootText => KEY_VERSION + "\0root\0"
    case BranchText(parent, kind, index) =>
      KEY_VERSION + (parent + ("\0branch\0" + (KindName(kind) + ("\0" + Decimal(index)))))
    case AgentText(parent, index, prompt, fields) =>
      KEY_VERSION + (parent + ("\0agent\0" + (Decimal(index) + ("\0" + (prompt + ("\0" + fields))))))
    case ExplicitText(name) => KEY_VERSION + ("\0explicit\0" + name)
  }

  lemma CancelPrefix(a: string, b: string, x: string, y: string)
    requires |a| == |b| && a + x == b + y
    ensures a == b && x == y
  {
    assert a == (a + x)[..|a|] && b == (b + y)[..|b|];
    assert x == (a + x)[|a|..] && y == (b + y)[|b|..];
  }

  /** A NUL-free field ends at the first NUL. */
  lemma FirstNul(a: string, b: string, x: string, y: string)
    requires NulFree(a) && NulFree(b) && a + ("\0" + x) == b + ("\0" + y)
    ensures a == b && x == y
  {
    var s, t := a + ("\0" + x), b + ("\0" + y);
    assert s[|a|] == '\0' && t[|b|] == '\0';
    assert forall i | 0 <= i < |a| :: s[i] == a[i] && a[i] in a;
    assert forall i | 0 <= i < |b| :: t[i] == b[i] && b[i] in b;
    assert |a| == |b|;
    CancelPrefix(a, b, "\0" + x, "\0" + y);
    CancelPrefix("\0", "\0", x, y);
  }

  /** A NUL-free field starts after the last NUL, whatever precedes it. */
  lemma LastNul(a: string, b: string, x: string, y: string)
    requires NulFree(x) && NulFree(y) && a + ("\0" + x) == b + ("\0" + y)
    ensures a == b && x == y
  {
    var s, t := a + ("\0" + x), b + ("\0" + y);
    assert s[|a|] == '\0' && t[|b|] == '\0';
    assert |a| + |x| == |b| + |y|;
    assert forall i | |a| < i < |s| :: s[i] == x[i - |a| - 1] && x[i - |a| - 1] in x;
    assert forall i | |b| < i < |t| :: t[i] == y[i - |b| - 1] && y[i - |b| - 1] in y;
    assert |a| == |b|;
    CancelPrefix(a, b, "\0" + x, "\0" + y);
    CancelPrefix("\0", "\0", x, y);
  }

  /** The characters that tell the four families apart: just after the version, and after the parent. */
  lemma Markers(p: Preimage)
    requires WellFormed(p)
    ensures |Encode(p)| > 3
    ensures (p.BranchText? || p.AgentText?) <==> Encode(p)[2] != '\0'
    ensures p.RootText? ==> Encode(p)[3] == 'r'
    ensures p.ExplicitText? ==> Encode(p)[3] == 'e'
    ensures p.BranchText? ==> |Encode(p)| > 67 && Encode(p)[67] == 'b'
    ensures p.AgentText? ==> |Encode(p)| > 67 && Encode(p)[67] == 'a'
  {
    match p
    case RootText =>
    case ExplicitText(name) =>
    case BranchText(parent, kind, index) =>
      var rest := KindName(kind) + ("\0" + Decimal(index));
      assert Encode(p)[2] == parent[0] && parent[0] in parent;
      assert Encode(p)[67] == ("\0branch\0" + rest)[1] == 'b';
    case AgentText(parent, index, prompt, fields) =>
      var rest := Decimal(index) + ("\0" + (prompt + ("\0" + fields)));
      assert Encode(p)[2] == parent[0] && parent[0] in parent;
      assert Encode(p)[67] == ("\0agent\0" + rest)[1] == 'a';
  }

  /** No two hashed texts coincide, within a family or across families, even when a prompt contains NUL. */
  lemma UniquelyDecodable(p: Preimage, q: Preimage)
    requires WellFormed(p) && WellFormed(q) && Encode(p) == Encode(q)
    ensures p == q
  {
    Markers(p);
    Markers(q);
    match p
    case RootText =>
    case ExplicitText(a) =>
      CancelPrefix(KEY_VERSION, KEY_VERSION, "\0explicit\0" + a, "\0explicit\0" + q.name);
      CancelPrefix("\0explicit\0", "\0explicit\0", a, q.name);
    case BranchText(u, k, i) =>
      BranchDecodable(u, q.parent, k, q.kind, i, q.index);
    case AgentText(u, i, a, f) =>
      AgentDecodable(u, q.parent, i, q.index, a, q.prompt, f, q.fields);
  }

  lemma BranchDecodable(u: string, v: string, k: Kind, l: Kind, i: nat, j: nat)
    requires IsDigest(u) && IsDigest(v) && Encode(BranchText(u, k, i)) == Encode(BranchText(v, l, j))
    ensures u == v && k == l && i == j
  {
    var x, y := "\0" + Decimal(i), "\0" + Decimal(j);
    CancelPrefix(KEY_VERSION, KEY_VERSION, u + ("\0branch\0" + (KindName(k) + x)),
      v + ("\0branch\0" + (KindName(l) + y)));
    CancelPrefix(u, v, "\0branch\0" + (KindName(k) + x), "\0branch\0" + (KindName(l) + y));
    CancelPrefix("\0branch\0", "\0branch\0", KindName(k) + x, KindName(l) + y);
    FirstNul(KindName(k), KindName(l), Decimal(i), Decimal(j));
    KindNamesDiffer(k, l);
    DecimalRoundTrip(i);
    DecimalRoundTrip(j);
  }

  lemma KindNamesDiffer(k: Kind, l: Kind)
    requires KindName(k) == KindName(l)
    ensures k == l
  {
    var s := KindName(k);
    match k
    case Parallel => assert s[2] == 'r';
    case Pipeline => assert s[2] == 'p';
    case Branch => assert s[0] == 'b';
    case Item => assert s[0] == 'i';
    case Stage => assert s[0] == 's';
  }

  lemma AgentDecodable(u: string, v: string, i: nat, j: nat, a: string, b: string, f: string, g: string)
    requires IsDigest(u) && IsDigest(v) && NulFree(f) && NulFree(g)
    requires Encode(AgentText(u, i, a, f)) == Encode(AgentText(v, j, b, g))
    ensures u == v && i == j && a == b && f == g
  {
    var x, y := a + ("\0" + f), b + ("\0" + g);
    var m, n := Decimal(i) + ("\0" + x), Decimal(j) + ("\0" + y);
    CancelPrefix(KEY_VERSION, KEY_VERSION, u + ("\0agent\0" + m), v + ("\0agent\0" + n));
    CancelPrefix(u, v, "\0agent\0" + m, "\0agent\0" + n);
    CancelPrefix("\0agent\0", "\0agent\0", m, n);
    FirstNul(Decimal(i), Decimal(j), x, y);
    LastNul(a, b, f, g);
    DecimalRoundTrip(i);
    DecimalRoundTrip(j);
  }

  /* ----- from texts to digests ----- */

  /** A digest function: the program's SHA-256 in hex. */
  ghost predicate IsHash(h: string -> string) { forall s: string :: IsDigest(h(s)) }

  /** ROOT_KEY, then one branchKey() per node. */
  function BranchDigest(h: string -> string, path: Path): string {
    h(Encode(BranchPreimage(h, path)))
  }

  function BranchPreimage(h: string -> string, path: Path): Preimage
    decreases path
  {
    if path == [] then RootText
    else
      var last := path[|path| - 1];
      BranchText(h(Encode(BranchPreimage(h, path[..|path| - 1]))), last.kind, last.index)
  }

  function KeyPreimage(h: string -> string, key: Key): Preimage {
    match key
    case Chain(branch, index, prompt, fields) => AgentText(BranchDigest(h, branch), index, prompt, fields)
    case Explicit(name) => ExplicitText(name)
  }

  function KeyDigest(h: string -> string, key: Key): string { h(Encode(KeyPreimage(h, key))) }

  predicate CanonicalFields(key: Key) { key.Chain? ==> NulFree(key.fields) }

  /** Every text hashed on the way to a key: its own, and one per branch above it. */
  ghost predicate HashedFor(h: string -> string, key: Key, text: string) {
    || text == Encode(KeyPreimage(h, key))
    || (key.Chain? && exists n: nat :: n <= |key.branch| && text == Encode(BranchPreimage(h, key.branch[..n])))
  }

  /** No collision among the texts hashed for the keys in `keys`. */
  ghost predicate CollisionFree(h: string -> string, keys: set<Key>) {
    forall k, l, s, t :: k in keys && l in keys && HashedFor(h, k, s) && HashedFor(h, l, t) && h(s) == h(t) ==> s == t
  }

  lemma SameText(h: string -> string, keys: set<Key>, k: Key, l: Key, p: Preimage, q: Preimage)
    requires CollisionFree(h, keys) && k in keys && l in keys
    requires HashedFor(h, k, Encode(p)) && HashedFor(h, l, Encode(q))
    requires WellFormed(p) && WellFormed(q) && h(Encode(p)) == h(Encode(q))
    ensures p == q
  {
    UniquelyDecodable(p, q);
  }

  /** branchKey() hashes its parent's key with the last node. */
  lemma LastNode(h: string -> string, path: Path)
    ensures path == [] <==> BranchPreimage(h, path) == RootText
    ensures path != [] ==>
              var n := |path| - 1;
              BranchPreimage(h, path) == BranchText(BranchDigest(h, path[..n]), path[n].kind, path[n].index)
  {}

  lemma SameBranchText(h: string -> string, k: Key, l: Key, m: nat, n: nat)
    requires IsHash(h) && CollisionFree(h, {k, l})
    requires k.Chain? && l.Chain? && m <= |k.branch| && n <= |l.branch|
    requires BranchDigest(h, k.branch[..m]) == BranchDigest(h, l.branch[..n])
    ensures BranchPreimage(h, k.branch[..m]) == BranchPreimage(h, l.branch[..n])
  {
    hide Encode;
    SameText(h, {k, l}, k, l, BranchPreimage(h, k.branch[..m]), BranchPreimage(h, l.branch[..n]));
  }

  lemma {:induction false} SameBranch(h: string -> string, k: Key, l: Key, m: nat, n: nat)
    requires IsHash(h) && CollisionFree(h, {k, l})
    requires k.Chain? && l.Chain? && m <= |k.branch| && n <= |l.branch|
    requires BranchDigest(h, k.branch[..m]) == BranchDigest(h, l.branch[..n])
    ensures k.branch[..m] == l.branch[..n]
    decreases m
  {
    hide BranchPreimage, BranchDigest, CollisionFree, HashedFor, Encode, IsHash;
    var a, b := k.branch[..m], l.branch[..n];
    SameBranchText(h, k, l, m, n);
    LastNode(h, a);
    LastNode(h, b);
    if m > 0 {
      assert a[..m - 1] == k.branch[..m - 1] && b[..n - 1] == l.branch[..n - 1];
      SameBranch(h, k, l, m - 1, n - 1);
      assert a == a[..m - 1] + [a[m - 1]] && b == b[..n - 1] + [b[n - 1]];
    }
  }

  /**
   With a hash that does not collide on the texts of a run, distinct positions (or explicit names)
   have distinct journal keys. The engine may therefore treat keys as positions.
   */
  lemma DigestsIdentifyKeys(h: string -> string, k: Key, l: Key)
    requires IsHash(h) && CollisionFree(h, {k, l})
    requires CanonicalFields(k) && CanonicalFields(l)
    ensures KeyDigest(h, k) == KeyDigest(h, l) <==> k == l
  {
    hide Encode, Decimal;
    if KeyDigest(h, k) == KeyDigest(h, l) {
      SameText(h, {k, l}, k, l, KeyPreimage(h, k), KeyPreimage(h, l));
      if k.Chain? {
        assert k.branch[..|k.branch|] == k.branch && l.branch[..|l.branch|] == l.branch;
        SameBranch(h, k, l, |k.branch|, |l.branch|);
      }
    }
  }
}
