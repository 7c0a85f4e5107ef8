/**
 JavaScript prompts and explicit names as hashed (src/runtime/keys.ts). A string is a sequence of UTF-16
 units; the digest reads its UTF-8 bytes, in which every unpaired surrogate becomes U+FFFD. The keys of the
 other modules take the text that is hashed; here is which strings share it.
 */
module Prompts {
  import opened Keys

  type Unit = n: nat | n < 0x10000

  predicate High(u: Unit) { 0xD800 <= u < 0xDC00 }

  predicate Low(u: Unit) { 0xDC00 <= u < 0xE000 }

  predicate Paired(s: seq<Unit>) { |s| >= 2 && High(s[0]) && Low(s[1]) }

  function Join(high: Unit, low: Unit): char
    requires High(high) && Low(low)
  {
    (0x10000 + (high - 0xD800) * 0x400 + (low - 0xDC00)) as char
  }

  const REPLACEMENT: Unit := 0xFFFD

  function Scrub(u: Unit): Unit { if High(u) || Low(u) then REPLACEMENT else u }

  /** The text whose UTF-8 bytes are hashed. */
  function Text(s: seq<Unit>): string {
    if s == [] then "" else if Paired(s) then [Join(s[0], s[1])] + Text(s[2..])
      else [Scrub(s[0]) as char] + Text(s[1..])
  }

  /** The prompt with every unpaired surrogate replaced. */
  function Scrubbed(s: seq<Unit>): seq<Unit> {
    if s == [] then [] else if Paired(s) then s[..2] + Scrubbed(s[2..]) else [Scrub(s[0])] + Scrubbed(s[1..])
  }

  function Units(c: char): seq<Unit> {
    var n := c as int;
    if n < 0x10000 then [n] else [0xD800 + (n - 0x10000) / 0x400, 0xDC00 + (n - 0x10000) % 0x400]
  }

  function Encode(text: string): seq<Unit> { if text == "" then [] else Units(text[0]) + Encode(text[1..]) }

  lemma JoinSplits(high: Unit, low: Unit)
    requires High(high) && Low(low)
    ensures Units(Join(high, low)) == [high, low]
  {}

  lemma {:induction false} ScrubbedIsEncoded(s: seq<Unit>)
    ensures Scrubbed(s) == Encode(Text(s))
  {
    if s == [] {
    } else if Paired(s) {
      JoinSplits(s[0], s[1]);
      ScrubbedIsEncoded(s[2..]);
      assert s[..2] == [s[0], s[1]];
    } else {
      ScrubbedIsEncoded(s[1..]);
    }
  }

  lemma {:induction false} EncodedReadsBack(text: string)
    ensures Text(Encode(text)) == text
  {
    if text != "" {
      var first, rest := Units(text[0]), Encode(text[1..]);
      EncodedReadsBack(text[1..]);
      assert (first + rest)[|first|..] == rest;
      assert text == [text[0]] + text[1..];
    }
  }

  /**
   Two prompts at one position, with the same fields, have one key exactly when they are equal once scrubbed;
   and so have two explicit names.
   */
  lemma PromptsShareExactly(branch: Path, index: nat, fields: string, a: seq<Unit>, b: seq<Unit>)
    ensures Chain(branch, index, Text(a), fields) == Chain(branch, index, Text(b), fields) <==>
              Scrubbed(a) == Scrubbed(b)
    ensures Explicit(Text(a)) == Explicit(Text(b)) <==> Scrubbed(a) == Scrubbed(b)
  {
    ScrubbedIsEncoded(a);
    ScrubbedIsEncoded(b);
    EncodedReadsBack(Text(a));
    EncodedReadsBack(Text(b));
  }

  /** Prompts of one unpaired surrogate each are different and share their key. */
  lemma LoneSurrogatesShare(branch: Path, index: nat, fields: string, u: Unit, v: Unit)
    requires (High(u) || Low(u)) && (High(v) || Low(v))
    ensures Chain(branch, index, Text([u]), fields) == Chain(branch, index, Text([v]), fields)
  {
    assert [u][1..] == [] && [v][1..] == [];
  }
}
