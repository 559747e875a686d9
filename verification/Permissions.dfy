/**
 Permission keys: percent-encoded segments, their byte-wise decoding, and the
 lookup of a policy from the most specific key to the most general one.
 */
module Permissions {
  import opened Prelude

  datatype Key = Key(tool: string, kind: string, target: string)

  type Byte = n: nat | n < 0x100

  // ---- Segments ---------------------------------------------------------------------------

  function EncodeSegment(s: string): string {
    ReplaceChar(ReplaceChar(ReplaceChar(s, '%', "%25"), '|', "%7C"), ' ', "%20")
  }

  function PermissionKey(k: Key): string {
    EncodeSegment(k.tool) + "|" + EncodeSegment(k.kind) + "|" + EncodeSegment(k.target)
  }

  /** The UTF-8 bytes of a character. */
  function CharBytes(c: char): (r: seq<Byte>)
    ensures 1 <= |r| <= 4 && (|r| == 1 <==> c < '\U{80}')
  {
    var n := c as int;
    if n < 0x80 then [n]
    else if n < 0x800 then [0xC0 + n / 0x40, 0x80 + n % 0x40]
    else if n < 0x1_0000 then [0xE0 + n / 0x1000, 0x80 + n / 0x40 % 0x40, 0x80 + n % 0x40]
    else [0xF0 + n / 0x4_0000, 0x80 + n / 0x1000 % 0x40, 0x80 + n / 0x40 % 0x40, 0x80 + n % 0x40]
  }

  function Utf8(s: string): seq<Byte> {
    if s == [] then [] else CharBytes(s[0]) + Utf8(s[1..])
  }

  /** What three bytes after a percent sign stand for. */
  function Escape(bs: seq<Byte>): Option<char> {
    if |bs| < 3 then None
    else if bs[1] == 0x32 && bs[2] == 0x30 then Some(' ')
    else if bs[1] == 0x32 && bs[2] == 0x35 then Some('%')
    else if bs[1] == 0x37 && (bs[2] == 0x43 || bs[2] == 0x63) then Some('|')
    else None
  }

  /** Decoding byte by byte: each byte that is no escape becomes one character. */
  function DecodeBytes(bs: seq<Byte>): Option<string> {
    if bs == [] then Some([])
    else if bs[0] == 0x25 then
      match Escape(bs)
      case None => None
      case Some(c) =>
        var rest := DecodeBytes(bs[3..]);
        if rest.None? then None else Some([c] + rest.value)
    else
      var rest := DecodeBytes(bs[1..]);
      if rest.None? then None else Some([bs[0] as char] + rest.value)
  }

  function DecodeSegment(s: string): Option<string> { DecodeBytes(Utf8(s)) }

  /** The decoder's loop over the bytes of the segment. */
  method Decode(value: string) returns (r: Option<string>)
    ensures r == DecodeSegment(value)
  {
    var bytes := Utf8(value);
    var out: string := [];
    var i := 0;
    assert bytes[0..] == bytes;
    PrefixedNothing(DecodeBytes(bytes));
    while i < |bytes|
      invariant 0 <= i <= |bytes|
      invariant DecodeBytes(bytes) == Prefixed(out, DecodeBytes(bytes[i..]))
    {
      if bytes[i] == 0x25 {
        var c := Escape(bytes[i..]);
        if c.None? { return None; }
        assert bytes[i..][3..] == bytes[i + 3..];
        PrefixedStep(out, c.value, DecodeBytes(bytes[i + 3..]));
        out := out + [c.value];
        i := i + 3;
      } else {
        assert bytes[i..][1..] == bytes[i + 1..];
        PrefixedStep(out, bytes[i] as char, DecodeBytes(bytes[i + 1..]));
        out := out + [bytes[i] as char];
        i := i + 1;
      }
    }
    assert bytes[i..] == [] && out + [] == out;
    return Some(out);
  }

  lemma PrefixedNothing(rest: Option<string>)
    ensures Prefixed([], rest) == rest
  {
    if rest.Some? { assert [] + rest.value == rest.value; }
  }

  function Prefixed(out: string, rest: Option<string>): Option<string> {
    if rest.None? then None else Some(out + rest.value)
  }

  lemma PrefixedStep(out: string, c: char, rest: Option<string>)
    ensures Prefixed(out, if rest.None? then None else Some([c] + rest.value)) == Prefixed(out + [c], rest)
  {
    if rest.Some? { ConcatAssoc(out, [c], rest.value); }
  }

  // ---- The three passes are one --------------------------------------------------------------

  function EncodeChar(c: char): string {
    if c == '%' then "%25" else if c == '|' then "%7C" else if c == ' ' then "%20" else [c]
  }

  function OnePass(s: string): string {
    if s == [] then [] else EncodeChar(s[0]) + OnePass(s[1..])
  }

  lemma ReplaceThree(x: char, y: char, z: char, c: char, with: string)
    requires x != c && y != c && z != c
    ensures ReplaceChar([x, y, z], c, with) == [x, y, z]
  {
    assert [x, y, z] == [x] + ([y] + [z]);
    ReplaceAppend([x], [y] + [z], c, with);
    ReplaceAppend([y], [z], c, with);
    ReplaceOne(x, c, with);
    ReplaceOne(y, c, with);
    ReplaceOne(z, c, with);
  }

  lemma EncodeOne(c: char)
    ensures EncodeSegment([c]) == EncodeChar(c)
  {
    ReplaceOne(c, '%', "%25");
    if c == '%' {
      ReplaceThree('%', '2', '5', '|', "%7C");
      ReplaceThree('%', '2', '5', ' ', "%20");
    } else {
      ReplaceOne(c, '|', "%7C");
      if c == '|' {
        ReplaceThree('%', '7', 'C', ' ', "%20");
      } else {
        ReplaceOne(c, ' ', "%20");
      }
    }
  }

  lemma EncodeAppend(a: string, b: string)
    ensures EncodeSegment(a + b) == EncodeSegment(a) + EncodeSegment(b)
  {
    ReplaceAppend(a, b, '%', "%25");
    var a1, b1 := ReplaceChar(a, '%', "%25"), ReplaceChar(b, '%', "%25");
    ReplaceAppend(a1, b1, '|', "%7C");
    ReplaceAppend(ReplaceChar(a1, '|', "%7C"), ReplaceChar(b1, '|', "%7C"), ' ', "%20");
  }

  /** Three replacements over the whole segment do what one look at each character does. */
  lemma {:induction false} EncodeIsOnePass(s: string)
    ensures EncodeSegment(s) == OnePass(s)
  {
    if s != [] {
      assert s == [s[0]] + s[1..];
      EncodeAppend([s[0]], s[1..]);
      EncodeOne(s[0]);
      EncodeIsOnePass(s[1..]);
    }
  }

  predicate Lacks(s: string, c: char) { forall i :: 0 <= i < |s| ==> s[i] != c }

  lemma {:induction false} EncodedLacksBar(s: string)
    ensures Lacks(OnePass(s), '|')
  {
    if s != [] { EncodedLacksBar(s[1..]); }
  }

  lemma ConcatParts(a: string, b: string, c: string, d: string)
    requires a + b == c + d && |a| == |c|
    ensures a == c && b == d
  {
    assert (a + b)[..|a|] == a && (c + d)[..|a|] == c;
    assert (a + b)[|a|..] == b && (c + d)[|c|..] == d;
  }

  /** Different segments have different encodings. */
  lemma {:induction false} EncodeInjective(a: string, b: string)
    requires OnePass(a) == OnePass(b)
    ensures a == b
  {
    if a != [] && b != [] {
      var x, y := EncodeChar(a[0]), EncodeChar(b[0]);
      SameFirst(a[0], b[0], OnePass(a[1..]), OnePass(b[1..]));
      ConcatParts(x, OnePass(a[1..]), y, OnePass(b[1..]));
      EncodeInjective(a[1..], b[1..]);
      assert a == [a[0]] + a[1..] && b == [b[0]] + b[1..];
    }
  }

  lemma SameFirst(c: char, d: char, s: string, t: string)
    requires EncodeChar(c) + s == EncodeChar(d) + t
    ensures c == d
  {
    var u, v := EncodeChar(c) + s, EncodeChar(d) + t;
    assert u[0] == EncodeChar(c)[0] && v[0] == EncodeChar(d)[0];
    if |EncodeChar(c)| == 3 && |EncodeChar(d)| == 3 {
      assert u[1] == EncodeChar(c)[1] && v[1] == EncodeChar(d)[1];
      assert u[2] == EncodeChar(c)[2] && v[2] == EncodeChar(d)[2];
    }
  }

  // ---- Splitting a key ---------------------------------------------------------------------------

  /** The text before the first bar, and the text after it if there is one. */
  function SplitBar(s: string): (string, Option<string>) {
    if s == [] then ([], None)
    else if s[0] == '|' then ([], Some(s[1..]))
    else var (before, after) := SplitBar(s[1..]); ([s[0]] + before, after)
  }

  function Parse(s: string): Option<Key> {
    var (a, rest) := SplitBar(s);
    if rest.None? then None else
    var (b, last) := SplitBar(rest.value);
    if last.None? then None else
    match (DecodeSegment(a), DecodeSegment(b), DecodeSegment(last.value))
    case (Some(tool), Some(kind), Some(target)) => Some(Key(tool, kind, target))
    case _ => None
  }

  lemma {:induction false} SplitAtBar(a: string, b: string)
    requires Lacks(a, '|')
    ensures SplitBar(a + "|" + b) == (a, Some(b))
  {
    if a == [] {
      assert a + "|" + b == "|" + b;
      assert ("|" + b)[1..] == b;
    } else {
      assert (a + "|" + b)[1..] == a[1..] + "|" + b;
      SplitAtBar(a[1..], b);
      assert a == [a[0]] + a[1..];
    }
  }

  lemma KeyParts(k: Key)
    ensures SplitBar(PermissionKey(k))
         == (OnePass(k.tool), Some(OnePass(k.kind) + "|" + OnePass(k.target)))
    ensures SplitBar(OnePass(k.kind) + "|" + OnePass(k.target)) == (OnePass(k.kind), Some(OnePass(k.target)))
  {
    EncodeIsOnePass(k.tool);
    EncodeIsOnePass(k.kind);
    EncodeIsOnePass(k.target);
    EncodedLacksBar(k.tool);
    EncodedLacksBar(k.kind);
    var a, b, c := OnePass(k.tool), OnePass(k.kind), OnePass(k.target);
    assert PermissionKey(k) == a + "|" + (b + "|" + c);
    SplitAtBar(a, b + "|" + c);
    SplitAtBar(b, c);
  }

  /** Different keys have different texts, whatever characters they use. */
  lemma PermissionKeyInjective(k: Key, m: Key)
    ensures PermissionKey(k) == PermissionKey(m) <==> k == m
  {
    if PermissionKey(k) == PermissionKey(m) {
      KeyParts(k);
      KeyParts(m);
      EncodeInjective(k.tool, m.tool);
      EncodeInjective(k.kind, m.kind);
      EncodeInjective(k.target, m.target);
    }
  }

  // ---- The round trip ------------------------------------------------------------------------------

  /** Each byte read as one character. */
  function Latin1(bs: seq<Byte>): (r: string)
    ensures |r| == |bs|
  {
    seq(|bs|, i requires 0 <= i < |bs| => bs[i] as char)
  }

  lemma {:induction false} Utf8Append(a: string, b: string)
    ensures Utf8(a + b) == Utf8(a) + Utf8(b)
  {
    if a == [] {
      assert a + b == b;
    } else {
      assert (a + b)[1..] == a[1..] + b;
      Utf8Append(a[1..], b);
      ConcatAssoc(CharBytes(a[0]), Utf8(a[1..]), Utf8(b));
    }
  }

  lemma Utf8One(c: char)
    ensures Utf8([c]) == CharBytes(c)
  {
    assert [c][1..] == [];
  }

  lemma Utf8Ascii3(x: char, y: char, z: char)
    requires x < '\U{80}' && y < '\U{80}' && z < '\U{80}'
    ensures Utf8([x, y, z]) == [x as int, y as int, z as int]
  {
    assert [x, y, z] == [x] + [y] + [z];
    Utf8Append([x] + [y], [z]);
    Utf8Append([x], [y]);
    Utf8One(x);
    Utf8One(y);
    Utf8One(z);
  }

  lemma {:induction false} DecodePlain(plain: seq<Byte>, rest: seq<Byte>)
    requires forall i :: 0 <= i < |plain| ==> plain[i] != 0x25
    ensures DecodeBytes(plain + rest) == Prefixed(Latin1(plain), DecodeBytes(rest))
  {
    if plain == [] {
      assert plain + rest == rest;
      assert Latin1(plain) == [];
      PrefixedNothing(DecodeBytes(rest));
    } else {
      assert (plain + rest)[1..] == plain[1..] + rest;
      DecodePlain(plain[1..], rest);
      assert Latin1(plain) == [plain[0] as char] + Latin1(plain[1..]);
      if DecodeBytes(rest).Some? {
        ConcatAssoc([plain[0] as char], Latin1(plain[1..]), DecodeBytes(rest).value);
      }
    }
  }

  lemma DecodeEscaped(bs: seq<Byte>, rest: seq<Byte>, c: char)
    requires |bs| == 3 && bs[0] == 0x25 && Escape(bs) == Some(c)
    ensures DecodeBytes(bs + rest) == Prefixed([c], DecodeBytes(rest))
  {
    assert (bs + rest)[3..] == rest;
    assert Escape(bs + rest) == Escape(bs);
  }

  /** One encoded character decodes to its bytes read one by one. */
  lemma DecodeChar(c: char, rest: seq<Byte>)
    ensures DecodeBytes(Utf8(EncodeChar(c)) + rest) == Prefixed(Latin1(CharBytes(c)), DecodeBytes(rest))
  {
    if c == '%' || c == '|' || c == ' ' {
      var e := EncodeChar(c);
      assert e == [e[0], e[1], e[2]];
      Utf8Ascii3(e[0], e[1], e[2]);
      assert Latin1(CharBytes(c)) == [c];
      DecodeEscaped(Utf8(e), rest, c);
    } else {
      Utf8One(c);
      DecodePlain(CharBytes(c), rest);
    }
  }

  lemma Latin1Append(a: seq<Byte>, b: seq<Byte>)
    ensures Latin1(a + b) == Latin1(a) + Latin1(b)
  {
  }

  /** Decoding an encoded segment gives its UTF-8 bytes, each as a character of its own. */
  lemma {:induction false} DecodeOfEncode(s: string)
    ensures DecodeBytes(Utf8(OnePass(s))) == Some(Latin1(Utf8(s)))
  {
    if s == [] {
      assert Latin1([]) == [];
    } else {
      DecodeOfEncode(s[1..]);
      Utf8Append(EncodeChar(s[0]), OnePass(s[1..]));
      DecodeChar(s[0], Utf8(OnePass(s[1..])));
      Latin1Append(CharBytes(s[0]), Utf8(s[1..]));
    }
  }

  predicate IsAscii(s: string) { forall i :: 0 <= i < |s| ==> s[i] < '\U{80}' }

  lemma {:induction false} Utf8Length(s: string)
    ensures |Utf8(s)| >= |s|
    ensures |Utf8(s)| == |s| <==> IsAscii(s)
    ensures IsAscii(s) ==> Latin1(Utf8(s)) == s
  {
    if s != [] {
      Utf8Length(s[1..]);
      assert s == [s[0]] + s[1..];
      assert IsAscii(s) <==> s[0] < '\U{80}' && IsAscii(s[1..]);
      if IsAscii(s) {
        assert Latin1(Utf8(s)) == [s[0]] + Latin1(Utf8(s[1..]));
      }
    }
  }

  /** A segment survives the round trip exactly when it is ASCII. */
  lemma SegmentRoundTrip(s: string)
    ensures DecodeSegment(EncodeSegment(s)) == Some(Latin1(Utf8(s)))
    ensures DecodeSegment(EncodeSegment(s)) == Some(s) <==> IsAscii(s)
  {
    EncodeIsOnePass(s);
    DecodeOfEncode(s);
    Utf8Length(s);
  }

  /** Parsing always succeeds on a formatted key, and gives it back exactly when it is ASCII throughout. */
  lemma KeyRoundTrip(k: Key)
    ensures Parse(PermissionKey(k)) == Some(Key(Latin1(Utf8(k.tool)), Latin1(Utf8(k.kind)), Latin1(Utf8(k.target))))
    ensures Parse(PermissionKey(k)) == Some(k) <==> IsAscii(k.tool) && IsAscii(k.kind) && IsAscii(k.target)
  {
    KeyParts(k);
    DecodeOfEncode(k.tool);
    DecodeOfEncode(k.kind);
    DecodeOfEncode(k.target);
    Utf8Length(k.tool);
    Utf8Length(k.kind);
    Utf8Length(k.target);
  }

  // ---- Policies ------------------------------------------------------------------------------------

  datatype Decision = AllowOnce | AllowSession | Deny | Never

  predicate IsAllowed(d: Decision) { d.AllowOnce? || d.AllowSession? }

  function DecisionName(d: Decision): string {
    match d
    case AllowOnce => "allow_once"
    case AllowSession => "allow_session"
    case Deny => "deny"
    case Never => "never"
  }

  /** From the key itself to every tool. */
  function Levels(k: Key): (r: seq<Key>)
    ensures |r| == 4
  {
    [k, Key(k.tool, k.kind, "*"), Key(k.tool, "tool", "*"), Key("*", "tool", "*")]
  }

  function Texts(ks: seq<Key>): (r: seq<string>)
    ensures |r| == |ks| && forall i :: 0 <= i < |ks| ==> r[i] == PermissionKey(ks[i])
  {
    seq(|ks|, i requires 0 <= i < |ks| => PermissionKey(ks[i]))
  }

  /** The decision of the first text that has one. */
  function FirstHit(texts: seq<string>, policies: map<string, Decision>): Option<Decision> {
    if texts == [] then None
    else if texts[0] in policies then Some(policies[texts[0]])
    else FirstHit(texts[1..], policies)
  }

  lemma {:induction false} FirstHitAppend(a: seq<string>, x: string, policies: map<string, Decision>)
    ensures FirstHit(a + [x], policies)
         == if FirstHit(a, policies).Some? then FirstHit(a, policies)
            else if x in policies then Some(policies[x]) else None
  {
    if a == [] {
      assert a + [x] == [x] && [x][1..] == [];
    } else {
      assert (a + [x])[1..] == a[1..] + [x];
      FirstHitAppend(a[1..], x, policies);
    }
  }

  lemma {:induction false} FirstHitNone(texts: seq<string>, policies: map<string, Decision>)
    ensures FirstHit(texts, policies).None? <==> forall x :: x in texts ==> x !in policies
  {
    if texts != [] {
      FirstHitNone(texts[1..], policies);
      assert texts == [texts[0]] + texts[1..];
    }
  }

  /** Dropping repeated candidates does not change what a lookup finds. */
  lemma {:induction false} DedupKeepsFirstHit(texts: seq<string>, policies: map<string, Decision>)
    ensures FirstHit(Dedup(texts), policies) == FirstHit(texts, policies)
  {
    if texts != [] {
      var front, last := texts[..|texts| - 1], texts[|texts| - 1];
      assert texts == front + [last];
      DedupKeepsFirstHit(front, policies);
      FirstHitAppend(front, last, policies);
      FirstHitAppend(Dedup(front), last, policies);
      FirstHitNone(Dedup(front), policies);
    }
  }

  /** The policy that applies to a key: the most specific one that exists. */
  function MostSpecific(k: Key, policies: map<Key, Decision>): Option<Decision> {
    FirstOf(k, Key(k.tool, k.kind, "*"), Key(k.tool, "tool", "*"), Key("*", "tool", "*"), policies)
  }

  /** A policy for the key itself goes before one for its kind, that before one for its tool, and that before one for all. */
  lemma MoreSpecificWins(k: Key, policies: map<Key, Decision>)
    ensures var kind, tool, all := Key(k.tool, k.kind, "*"), Key(k.tool, "tool", "*"), Key("*", "tool", "*");
            && (k in policies ==> MostSpecific(k, policies) == Some(policies[k]))
            && (k !in policies && kind in policies ==> MostSpecific(k, policies) == Some(policies[kind]))
            && (k !in policies && kind !in policies && tool in policies ==>
                  MostSpecific(k, policies) == Some(policies[tool]))
            && (k !in policies && kind !in policies && tool !in policies && all in policies ==>
                  MostSpecific(k, policies) == Some(policies[all]))
            && (MostSpecific(k, policies).None? <==>
                  k !in policies && kind !in policies && tool !in policies && all !in policies)
  {
  }

  /** A text-keyed table holds these policies. */
  ghost predicate Holds(texts: map<string, Decision>, policies: map<Key, Decision>) {
    forall k: Key :: (PermissionKey(k) in texts <==> k in policies)
      && (k in policies ==> texts[PermissionKey(k)] == policies[k])
  }

  /** A text that no key formats to leaves every policy as it is. */
  lemma StoreForeignText(texts: map<string, Decision>, policies: map<Key, Decision>, text: string, d: Decision)
    requires Holds(texts, policies) && (forall k: Key :: PermissionKey(k) != text)
    ensures Holds(texts[text := d], policies) && Holds(texts - {text}, policies)
  {
  }

  /** Storing one policy under its text stores nothing else, because texts are unique. */
  lemma StoreOne(texts: map<string, Decision>, policies: map<Key, Decision>, k: Key, d: Decision)
    requires Holds(texts, policies)
    ensures Holds(texts[PermissionKey(k) := d], policies[k := d])
    ensures Holds(texts - {PermissionKey(k)}, policies - {k})
  {
    forall m: Key ensures PermissionKey(m) == PermissionKey(k) <==> m == k { PermissionKeyInjective(m, k); }
  }

  /** The first of four places that holds something. */
  function FirstOf<K(==)>(a: K, b: K, c: K, d: K, table: map<K, Decision>): Option<Decision> {
    if a in table then Some(table[a])
    else if b in table then Some(table[b])
    else if c in table then Some(table[c])
    else if d in table then Some(table[d])
    else None
  }

  /** The four texts of a key, tried from the most specific to the most general. */
  function Lookup(k: Key, texts: map<string, Decision>): Option<Decision> {
    FirstOf(PermissionKey(k), PermissionKey(Key(k.tool, k.kind, "*")),
            PermissionKey(Key(k.tool, "tool", "*")), PermissionKey(Key("*", "tool", "*")), texts)
  }

  ghost predicate SameAt(text: string, k: Key, texts: map<string, Decision>, policies: map<Key, Decision>) {
    (text in texts <==> k in policies) && (k in policies ==> texts[text] == policies[k])
  }

  lemma FirstOfAgree(t1: string, t2: string, t3: string, t4: string, k1: Key, k2: Key, k3: Key, k4: Key,
                     texts: map<string, Decision>, policies: map<Key, Decision>)
    requires SameAt(t1, k1, texts, policies) && SameAt(t2, k2, texts, policies)
    requires SameAt(t3, k3, texts, policies) && SameAt(t4, k4, texts, policies)
    ensures FirstOf(t1, t2, t3, t4, texts) == FirstOf(k1, k2, k3, k4, policies)
  {
  }

  lemma HoldsAt(texts: map<string, Decision>, policies: map<Key, Decision>, k: Key)
    requires Holds(texts, policies)
    ensures SameAt(PermissionKey(k), k, texts, policies)
  {
  }

  /** On a table that holds policies the lookup by text is the lookup by key. */
  lemma LookupIsMostSpecific(k: Key, texts: map<string, Decision>, policies: map<Key, Decision>)
    requires Holds(texts, policies)
    ensures Lookup(k, texts) == MostSpecific(k, policies)
  {
    var k2, k3, k4 := Key(k.tool, k.kind, "*"), Key(k.tool, "tool", "*"), Key("*", "tool", "*");
    HoldsAt(texts, policies, k);
    HoldsAt(texts, policies, k2);
    HoldsAt(texts, policies, k3);
    HoldsAt(texts, policies, k4);
    FirstOfAgree(PermissionKey(k), PermissionKey(k2), PermissionKey(k3), PermissionKey(k4), k, k2, k3, k4, texts, policies);
  }

  lemma LevelsFirstHit(k: Key, texts: map<string, Decision>)
    ensures FirstHit(Texts(Levels(k)), texts) == Lookup(k, texts)
  {
    var ts := Texts(Levels(k));
    assert ts[1..][1..] == ts[2..] && ts[2..][1..] == ts[3..] && ts[3..][1..] == [];
    assert FirstHit(ts[3..], texts) == if ts[3] in texts then Some(texts[ts[3]]) else None;
    assert FirstHit(ts[2..], texts) == if ts[2] in texts then Some(texts[ts[2]]) else FirstHit(ts[3..], texts);
    assert FirstHit(ts[1..], texts) == if ts[1] in texts then Some(texts[ts[1]]) else FirstHit(ts[2..], texts);
    assert FirstHit(ts, texts) == if ts[0] in texts then Some(texts[ts[0]]) else FirstHit(ts[1..], texts);
  }

  /** The candidate texts of a key, without repetitions. */
  method Candidates(k: Key) returns (unique: seq<string>)
    ensures unique == Dedup(Texts(Levels(k)))
  {
    var candidates := Texts(Levels(k));
    unique := [];
    for i := 0 to |candidates|
      invariant unique == Dedup(candidates[..i])
    {
      assert candidates[..i + 1][..i] == candidates[..i];
      if candidates[i] !in unique { unique := unique + [candidates[i]]; }
    }
    assert candidates[..|candidates|] == candidates;
  }

  /** Decisions of one session, under any texts. */
  class SessionApprovalStore {
    var inner: map<string, Decision>

    constructor ()
      ensures inner == map[] && Holds(inner, map[])
    {
      inner := map[];
    }

    method Set(permissionKey: string, d: Decision)
      modifies this
      ensures inner == old(inner)[permissionKey := d]
    {
      inner := inner[permissionKey := d];
    }

    method Remove(permissionKey: string)
      modifies this
      ensures inner == old(inner) - {permissionKey}
    {
      inner := inner - {permissionKey};
    }

    method Clear()
      modifies this
      ensures inner == map[] && Holds(inner, map[])
    {
      inner := map[];
    }

    /** The lookup over the deduplicated texts finds the most specific decision. */
    method Resolve(k: Key) returns (r: Option<Decision>)
      ensures r == Lookup(k, inner)
      ensures forall policies :: Holds(inner, policies) ==> r == MostSpecific(k, policies)
    {
      var candidates := Candidates(k);
      DedupKeepsFirstHit(Texts(Levels(k)), inner);
      LevelsFirstHit(k, inner);
      r := FindFirst(candidates, inner);
      forall policies | Holds(inner, policies) ensures r == MostSpecific(k, policies) {
        LookupIsMostSpecific(k, inner, policies);
      }
    }
  }

  /** `find_map` over the candidates. */
  method FindFirst(texts: seq<string>, policies: map<string, Decision>) returns (r: Option<Decision>)
    ensures r == FirstHit(texts, policies)
  {
    var i := 0;
    assert texts[0..] == texts;
    while i < |texts|
      invariant 0 <= i <= |texts|
      invariant FirstHit(texts, policies) == FirstHit(texts[i..], policies)
    {
      assert texts[i..][0] == texts[i] && texts[i..][1..] == texts[i + 1..];
      if texts[i] in policies { return Some(policies[texts[i]]); }
      i := i + 1;
    }
    return None;
  }
}
