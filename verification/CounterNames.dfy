/** The words of Xray's counter names, spelled as text, and what a counter that Xray sends is taken for. */
module CounterNames {
  import opened Outcome
  import opened StatsWire
  import opened StatsQuery
  import opened Varint

  /** The bytes of an ASCII text. */
  function Ascii(s: string): Bytes
    requires forall i :: 0 <= i < |s| ==> s[i] < '\U{0080}'
  {
    seq(|s|, i requires 0 <= i < |s| => s[i] as int)
  }

  lemma Words()
    ensures USER == Ascii("user") && CLIENT == Ascii("client") && INBOUND == Ascii("inbound") && OUTBOUND == Ascii("outbound") && CORE == Ascii("core")
    ensures TRAFFIC == Ascii("traffic") && UPLINK == Ascii("uplink") && DOWNLINK == Ascii("downlink") && SEP == Ascii(">>>")
  {
  }

  const SCOPES := {Ascii("user"), Ascii("inbound"), Ascii("outbound"), Ascii("core")}

  /** Users are the panel's clients; inbounds, outbounds and the core itself keep their names; any other scope is none of ours. */
  function TakenFor(scope: Bytes): Option<Bytes> {
    if scope == Ascii("user") then Some(Ascii("client")) else if scope in SCOPES then Some(scope) else None
  }

  lemma TakenForIs(scope: Bytes)
    ensures NormalizedScopeType(scope) == if TakenFor(scope).Some? then TakenFor(scope).value else []
    ensures TakenFor(scope).Some? ==> TakenFor(scope).value != []
  {
    Words();
    hide Ascii;
    assert |CLIENT| == 6 && |INBOUND| == 7 && |OUTBOUND| == 8 && |CORE| == 4;
  }

  /** A name `scope>>>key>>>traffic>>>direction`, as Xray sends it. */
  function Sent(scope: Bytes, key: Bytes, direction: Bytes): Bytes {
    scope + Ascii(">>>") + (key + (Ascii(">>>") + (Ascii("traffic") + Ascii(">>>") + direction)))
  }

  /** Such a counter is taken for its scope, whatever the direction is called, as long as the key is safe. */
  lemma SentIsTaken(scope: Bytes, key: Bytes, direction: Bytes)
    requires GT !in scope && GT !in direction && SafeKey(key)
    ensures Parse(Sent(scope, key, direction)) == if TakenFor(scope).Some? then Some((TakenFor(scope).value, key, direction)) else None
  {
    Words();
    TakenForIs(scope);
    hide Blank, Index, Split, NormalizedScopeType, Ascii, TakenFor, EndsWithGt;
    assert Sent(scope, key, direction) == scope + SEP + (key + Tail(direction));
    SplitPlain(scope);
    SplitAtSep(scope, key + Tail(direction));
    SplitCleanKey(key, direction);
  }

  /** A name with another word in the third place is ignored. */
  lemma OtherMetricIgnored(scope: Bytes, key: Bytes, metric: Bytes, direction: Bytes)
    requires GT !in scope && GT !in key && GT !in metric && GT !in direction && metric != Ascii("traffic")
    ensures Parse(scope + SEP + (key + SEP + (metric + SEP + direction))) == None
  {
    Words();
    hide Index, Ascii, Blank, NormalizedScopeType, Split;
    SplitPlain(scope);
    SplitPlain(key);
    SplitPlain(metric);
    SplitPlain(direction);
    SplitAtSep(scope, key + SEP + (metric + SEP + direction));
    SplitAtSep(key, metric + SEP + direction);
    SplitAtSep(metric, direction);
  }

  /** What one entry does to the stats: "uplink" and "downlink" set their counter, anything else only makes the scope known. */
  lemma EntryTaken(engine: Bytes, byScope: map<ScopeKey, Stat>, scope: Bytes, key: Bytes, direction: Bytes, value: Int64)
    requires GT !in scope && GT !in direction && SafeKey(key) && TakenFor(scope).Some?
    ensures var at, m := (TakenFor(scope).value, key), Absorb(engine, byScope, RawStat(Sent(scope, key, direction), value));
            var was := if at in byScope then byScope[at] else Stat(engine, TakenFor(scope).value, key, 0, 0);
            && at in m && m.Keys == byScope.Keys + {at} && (forall other :: other in byScope && other != at ==> m[other] == byScope[other])
            && m[at] == was.(uplink := if direction == Ascii("uplink") then value else was.uplink,
                             downlink := if direction == Ascii("downlink") then value else was.downlink)
  {
    SentIsTaken(scope, key, direction);
    Words();
    assert |UPLINK| == 6 && |DOWNLINK| == 8;
    hide Parse, Sent, Ascii, TakenFor, SafeKey;
  }

  // ---------- Blank keys ----------

  /** The UTF-8 encoding of a character from U+0800 to U+FFFF. */
  function ThreeBytes(c: int): (Byte, Byte, Byte)
    requires 0x800 <= c <= 0xffff
  {
    (0xe0 + c / 0x1000, 0x80 + c / 0x40 % 0x40, 0x80 + c % 0x40)
  }

  /** The white space among them. */
  lemma WideSpaceIff(c: int)
    requires 0x800 <= c <= 0xffff
    ensures WideSpace(ThreeBytes(c).0, ThreeBytes(c).1, ThreeBytes(c).2) <==>
              c == 0x1680 || 0x2000 <= c <= 0x200a || c == 0x2028 || c == 0x2029 || c == 0x202f || c == 0x205f || c == 0x3000
  {
  }

  /** A white-space character of one byte. */
  predicate Space(b: Byte) {
    b in {0x09, 0x0a, 0x0b, 0x0c, 0x0d, 0x20}
  }

  predicate AllSpace(s: Bytes) {
    forall i :: 0 <= i < |s| ==> Space(s[i])
  }

  lemma SpaceInFront(s: Bytes)
    requires s != []
    ensures AllSpace(s) <==> Space(s[0]) && AllSpace(s[1..])
  {
    hide Space;
    assert s == [s[0]] + s[1..];
  }

  /** In ASCII a key is blank exactly if it holds nothing but white space. */
  lemma {:induction false} BlankAsciiIff(s: Bytes)
    requires forall i :: 0 <= i < |s| ==> s[i] < 0x80
    ensures Blank(s) <==> AllSpace(s)
  {
    hide AllSpace;
    if s != [] {
      BlankAsciiIff(s[1..]);
      SpaceInFront(s);
    } else {
      NoSpaceLeft();
    }
  }

  lemma NoSpaceLeft()
    ensures AllSpace([])
  {
  }

  /** Of the characters that take two bytes, two are white space. */
  lemma TwoByteSpaces(a: Byte, b: Byte)
    requires 0xc2 <= a <= 0xdf && 0x80 <= b <= 0xbf
    ensures Blank([a, b]) <==> a == 0xc2 && (b == 0x85 || b == 0xa0)
  {
    assert [a, b][2..] == [];
  }

  /** Keys of printable ASCII without `>` are safe. */
  lemma PlainKeyIsSafe(key: Bytes)
    requires key != [] && forall i :: 0 <= i < |key| ==> 0x21 <= key[i] < 0x7f && key[i] != GT
    ensures SafeKey(key)
  {
    BlankAsciiIff(key);
    assert !Space(key[0]);
    assert GT !in key;
    SplitPlain(key);
    hide Blank, Index;
  }
}
