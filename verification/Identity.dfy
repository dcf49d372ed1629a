// How a version gets its name: the bytes fed to the hasher and the digits its result is
// written in (replicaset.rs).
module Identity {
  import opened Base

  newtype Byte = b: int | 0 <= b < 256

  const TWO_TO_32: int := 0x1_0000_0000
  const TWO_TO_64: int := 0x1_0000_0000_0000_0000

  // --- The hash input ---

  // `to_be_bytes` of an unsigned number, in `width` bytes.
  function BigEndian(n: nat, width: nat): seq<Byte> {
    if width == 0 then [] else BigEndian(n / 256, width - 1) + [(n % 256) as Byte]
  }

  function FromBigEndian(s: seq<Byte>): nat {
    if s == [] then 0 else FromBigEndian(s[..|s| - 1]) * 256 + s[|s| - 1] as nat
  }

  // Strings as the bytes of their encoding.
  type Text = seq<Byte>

  // What in-process tunnel mode folds into the hash.
  datatype Tunnel = Tunnel(environmentId: Text, region: Text, signingKey: Text, proxyBaseUrl: Option<Text>)

  datatype Inputs = Inputs(
    template: Text,
    cluster: Option<Text>,
    servicePath: Option<Text>,
    useHttp11: bool,
    tunnel: Option<Tunnel>,
    // a signed 32-bit counter
    collisionCount: Option<int>)

  function OfString(s: string): Text {
    if s == "" then [] else [(s[0] as int % 256) as Byte] + OfString(s[1..])
  }

  function Http11Flag(): Text {
    OfString("use_http11")
  }

  function ModeMarker(): Text {
    OfString("tunnel_mode=in-process")
  }

  function UrlMarker(): Text {
    OfString("proxy_base_url=")
  }

  function Optional(t: Option<Text>): Text {
    if t.Some? then t.value else []
  }

  function Prefixed(t: Text): Text {
    BigEndian(|t|, 8) + t
  }

  function CollisionBytes(count: Option<int>): Text {
    if count.Some? then BigEndian(count.value % TWO_TO_32, 4) else []
  }

  function UrlBytes(url: Option<Text>): Text {
    if url.Some? then UrlMarker() + Prefixed(url.value) else []
  }

  // Written after the mode marker.
  function TunnelBytes(t: Tunnel, count: Option<int>): Text {
    Prefixed(t.environmentId)
    + (Prefixed(t.region)
       + (Prefixed(t.signingKey)
          + (UrlBytes(t.proxyBaseUrl) + CollisionBytes(count))))
  }

  function EarlierInputs(i: Inputs): Text {
    i.template + Optional(i.cluster) + Optional(i.servicePath) + if i.useHttp11 then Http11Flag() else []
  }

  // Everything written to the hasher, in order.
  function HashInput(i: Inputs): Text {
    EarlierInputs(i)
    + match i.tunnel
      case Some(tunnel) => ModeMarker() + TunnelBytes(tunnel, i.collisionCount)
      case None => CollisionBytes(i.collisionCount)
  }

  // The hasher, for what has been fed to it so far.
  class Hasher {
    var fed: Text

    constructor ()
      ensures fed == []
    {
      fed := [];
    }

    method Write(bytes: Text)
      modifies this
      ensures fed == old(fed) + bytes
    {
      fed := fed + bytes;
    }

    // A value after its length, so that distinct tuples cannot concatenate identically.
    method WritePrefixed(value: Text)
      modifies this
      ensures fed == old(fed) + Prefixed(value)
    {
      Write(BigEndian(|value|, 8));
      Write(value);
    }
  }

  function AllPrefixed(values: seq<Text>): Text {
    if values == [] then [] else Prefixed(values[0]) + AllPrefixed(values[1..])
  }

  lemma {:induction false} AllPrefixedSnoc(values: seq<Text>, last: Text)
    ensures AllPrefixed(values + [last]) == AllPrefixed(values) + Prefixed(last)
  {
    if values == [] {
      assert values + [last] == [last];
    } else {
      assert (values + [last])[1..] == values[1..] + [last];
      AllPrefixedSnoc(values[1..], last);
    }
  }

  lemma ThreePrefixed(a: Text, b: Text, c: Text)
    ensures AllPrefixed([a, b, c]) == Prefixed(a) + (Prefixed(b) + Prefixed(c))
  {
    hide Prefixed;
    assert [a, b, c][1..] == [b, c] && [b, c][1..] == [c] && [c][1..] == [];
    assert AllPrefixed([c]) == Prefixed(c);
    assert AllPrefixed([b, c]) == Prefixed(b) + Prefixed(c);
  }

  method FeedTunnel(h: Hasher, t: Tunnel)
    modifies h
    ensures h.fed == old(h.fed) + ModeMarker() + TunnelParameters(t) + UrlBytes(t.proxyBaseUrl)
  {
    hide Prefixed, ModeMarker, UrlMarker, AllPrefixed;
    h.Write(ModeMarker());
    ghost var before := h.fed;
    var values := [t.environmentId, t.region, t.signingKey];
    EmptyPrefixed();
    for k := 0 to |values|
      invariant h.fed == before + AllPrefixed(values[..k])
    {
      AllPrefixedSnoc(values[..k], values[k]);
      assert values[..k + 1] == values[..k] + [values[k]];
      h.WritePrefixed(values[k]);
    }
    assert values[..|values|] == values;
    ThreePrefixed(t.environmentId, t.region, t.signingKey);
    if t.proxyBaseUrl.Some? {
      h.Write(UrlMarker());
      h.WritePrefixed(t.proxyBaseUrl.value);
    }
  }

  lemma EmptyPrefixed()
    ensures AllPrefixed([]) == []
  {
  }

  function TunnelParameters(t: Tunnel): Text {
    Prefixed(t.environmentId) + (Prefixed(t.region) + Prefixed(t.signingKey))
  }

  // The inputs as the reconciler feeds them, one after the other.
  method Feed(i: Inputs) returns (h: Hasher)
    ensures fresh(h) && h.fed == HashInput(i)
    ensures h.fed == Spelled(i)
  {
    h := new Hasher();
    FeedEarlier(h, i);
    hide EarlierInputs, ModeMarker, TunnelParameters, UrlBytes, HashInput, CollisionBytes, Spelled;
    InputsInOrder(i);
    InputsSpelled(i);
    if i.tunnel.Some? {
      FeedTunnel(h, i.tunnel.value);
    }
    FeedCollisions(h, i.collisionCount);
  }

  method FeedEarlier(h: Hasher, i: Inputs)
    requires h.fed == []
    modifies h
    ensures h.fed == EarlierInputs(i)
  {
    hide Http11Flag, OfString;
    h.Write(i.template);
    if i.cluster.Some? {
      h.Write(i.cluster.value);
    }
    assert h.fed == i.template + Optional(i.cluster);
    if i.servicePath.Some? {
      h.Write(i.servicePath.value);
    }
    assert h.fed == i.template + Optional(i.cluster) + Optional(i.servicePath);
    if i.useHttp11 {
      h.Write(Http11Flag());
    }
  }

  method FeedCollisions(h: Hasher, count: Option<int>)
    modifies h
    ensures h.fed == old(h.fed) + CollisionBytes(count)
  {
    if count.Some? {
      h.Write(BigEndian(count.value % TWO_TO_32, 4));
    }
  }

  // What the reconciler writes, spelled out.
  ghost function Spelled(i: Inputs): Text {
    var count := if i.collisionCount.Some? then BigEndian(i.collisionCount.value % 0x1_0000_0000, 4) else [];
    i.template + Optional(i.cluster) + Optional(i.servicePath) + (if i.useHttp11 then OfString("use_http11") else [])
    + match i.tunnel
      case Some(t) =>
        var url := if t.proxyBaseUrl.Some? then OfString("proxy_base_url=") + Prefixed(t.proxyBaseUrl.value) else [];
        OfString("tunnel_mode=in-process")
        + (Prefixed(t.environmentId) + (Prefixed(t.region) + (Prefixed(t.signingKey) + (url + count))))
      case None => count
  }

  lemma InputsSpelled(i: Inputs)
    ensures Spelled(i) == HashInput(i)
  {
    hide OfString, Prefixed, Optional, BigEndian;
  }

  lemma InputsInOrder(i: Inputs)
    ensures HashInput(i) ==
      match i.tunnel
      case Some(t) => (EarlierInputs(i) + ModeMarker() + TunnelParameters(t) + UrlBytes(t.proxyBaseUrl)) + CollisionBytes(i.collisionCount)
      case None => EarlierInputs(i) + CollisionBytes(i.collisionCount)
  {
    hide EarlierInputs, ModeMarker, Prefixed, UrlBytes, CollisionBytes;
    if i.tunnel.Some? {
      var t := i.tunnel.value;
      Reassociate(Prefixed(t.environmentId), Prefixed(t.region), Prefixed(t.signingKey),
        UrlBytes(t.proxyBaseUrl), CollisionBytes(i.collisionCount));
      Reorder(EarlierInputs(i), ModeMarker(), TunnelParameters(t), UrlBytes(t.proxyBaseUrl), CollisionBytes(i.collisionCount));
    }
  }

  lemma Reassociate(a: Text, b: Text, c: Text, d: Text, e: Text)
    ensures a + (b + (c + (d + e))) == ((a + (b + c)) + d) + e
  {
  }

  lemma Reorder(a: Text, b: Text, c: Text, d: Text, e: Text)
    ensures a + (b + ((c + d) + e)) == (a + b + c + d) + e
  {
  }

  // --- Reading it back ---

  function TakePrefixed(s: Text): Option<(Text, Text)> {
    if |s| < 8 then None
    else
      var n := FromBigEndian(s[..8]);
      if |s| < 8 + n then None else Some((s[8..8 + n], s[8 + n..]))
  }

  function ReadCollisions(s: Text): Option<Option<int>> {
    if |s| == 0 then Some(None)
    else if |s| == 4 then
      var n := FromBigEndian(s);
      Some(Some(if n < TWO_TO_32 / 2 then n else n - TWO_TO_32))
    else None
  }

  // With a proxy URL at least 23 bytes follow the third field, without one at most 4.
  function ReadTail(s: Text): Option<(Option<Text>, Option<int>)> {
    if |s| <= 4 then
      if ReadCollisions(s).Some? then Some((None, ReadCollisions(s).value)) else None
    else if |s| < 15 || TakePrefixed(s[15..]).None? then None
    else
      var (url, rest) := TakePrefixed(s[15..]).value;
      if ReadCollisions(rest).Some? then Some((Some(url), ReadCollisions(rest).value)) else None
  }

  // The tunnel parameters and the collision count, from what follows the mode marker.
  function ReadTunnel(s: Text): Option<(Tunnel, Option<int>)> {
    match TakePrefixed(s)
    case None => None
    case Some((environment, afterEnvironment)) =>
      match TakePrefixed(afterEnvironment)
      case None => None
      case Some((region, afterRegion)) =>
        match TakePrefixed(afterRegion)
        case None => None
        case Some((key, afterKey)) =>
          match ReadTail(afterKey)
          case None => None
          case Some((url, count)) => Some((Tunnel(environment, region, key, url), count))
  }

  ghost predicate Sized(t: Tunnel) {
    && |t.environmentId| < TWO_TO_64 && |t.region| < TWO_TO_64 && |t.signingKey| < TWO_TO_64
    && (t.proxyBaseUrl.Some? ==> |t.proxyBaseUrl.value| < TWO_TO_64)
  }

  ghost predicate IsI32(count: Option<int>) {
    count.Some? ==> -(TWO_TO_32 / 2) <= count.value < TWO_TO_32 / 2
  }

  function Pow256(k: nat): nat {
    if k == 0 then 1 else 256 * Pow256(k - 1)
  }

  lemma {:induction false} BigEndianReads(n: nat, width: nat)
    requires n < Pow256(width)
    ensures |BigEndian(n, width)| == width && FromBigEndian(BigEndian(n, width)) == n
    decreases width
  {
    if width > 0 {
      BigEndianReads(n / 256, width - 1);
      assert BigEndian(n, width)[..width - 1] == BigEndian(n / 256, width - 1);
    }
  }

  lemma PowersOf256()
    ensures Pow256(4) == TWO_TO_32 && Pow256(8) == TWO_TO_64
  {
    assert Pow256(4) == 256 * (256 * (256 * 256));
    assert Pow256(8) == 256 * (256 * (256 * (256 * Pow256(4))));
  }

  lemma PrefixedReads(t: Text, rest: Text)
    requires |t| < TWO_TO_64
    ensures TakePrefixed(Prefixed(t) + rest) == Some((t, rest))
  {
    PowersOf256();
    BigEndianReads(|t|, 8);
    var s := Prefixed(t) + rest;
    assert s[..8] == BigEndian(|t|, 8) && s[8..8 + |t|] == t && s[8 + |t|..] == rest;
  }

  lemma CollisionsRead(count: Option<int>)
    requires IsI32(count)
    ensures ReadCollisions(CollisionBytes(count)) == Some(count) && |CollisionBytes(count)| <= 4
  {
    if count.Some? {
      PowersOf256();
      BigEndianReads(count.value % TWO_TO_32, 4);
    }
  }

  lemma TailReads(url: Option<Text>, count: Option<int>)
    requires IsI32(count) && (url.Some? ==> |url.value| < TWO_TO_64)
    ensures ReadTail(UrlBytes(url) + CollisionBytes(count)) == Some((url, count))
  {
    var tail := CollisionBytes(count);
    CollisionsRead(count);
    MarkerLength();
    hide CollisionBytes, ReadCollisions, UrlMarker, OfString, TakePrefixed, Prefixed;
    if url.Some? {
      PrefixedReads(url.value, tail);
      PrefixedLength(url.value);
      AfterMarker(UrlMarker(), Prefixed(url.value), tail);
    } else {
      assert UrlBytes(url) + tail == tail;
    }
  }

  lemma AfterMarker(marker: Text, a: Text, b: Text)
    requires |marker| == 15
    ensures |(marker + a) + b| == 15 + |a| + |b| && ((marker + a) + b)[15..] == a + b
  {
  }

  lemma PrefixedLength(t: Text)
    ensures |t| < TWO_TO_64 ==> |Prefixed(t)| == 8 + |t|
  {
    if |t| < TWO_TO_64 {
      PowersOf256();
      BigEndianReads(|t|, 8);
    }
  }

  // The bytes of a tunnel and a collision count read back as exactly those.
  lemma TunnelReads(t: Tunnel, count: Option<int>)
    requires Sized(t) && IsI32(count)
    ensures ReadTunnel(TunnelBytes(t, count)) == Some((t, count))
  {
    hide TakePrefixed, Prefixed, ReadTail, UrlBytes, CollisionBytes;
    var afterKey := UrlBytes(t.proxyBaseUrl) + CollisionBytes(count);
    var afterRegion := Prefixed(t.signingKey) + afterKey;
    var afterEnvironment := Prefixed(t.region) + afterRegion;
    PrefixedReads(t.environmentId, afterEnvironment);
    PrefixedReads(t.region, afterRegion);
    PrefixedReads(t.signingKey, afterKey);
    TailReads(t.proxyBaseUrl, count);
  }

  lemma {:induction false} OfStringLength(s: string)
    ensures |OfString(s)| == |s|
  {
    if s != "" {
      OfStringLength(s[1..]);
    }
  }

  lemma MarkerLength()
    ensures |UrlMarker()| == 15
  {
    OfStringLength("proxy_base_url=");
  }

  // With the earlier inputs fixed, two in-process versions feed the hasher the same bytes only
  // when they agree on every tunnel parameter and on the collision count.
  lemma TunnelInputsAreInjective(a: Inputs, b: Inputs)
    requires a.tunnel.Some? && b.tunnel.Some?
    requires b == a.(tunnel := b.tunnel, collisionCount := b.collisionCount)
    requires Sized(a.tunnel.value) && Sized(b.tunnel.value) && IsI32(a.collisionCount) && IsI32(b.collisionCount)
    ensures HashInput(a) == HashInput(b) <==> a == b
  {
    InputsSplit(a);
    InputsSplit(b);
    TunnelReads(a.tunnel.value, a.collisionCount);
    TunnelReads(b.tunnel.value, b.collisionCount);
    assert EarlierInputs(b) == EarlierInputs(a);
    hide *;
    var before := EarlierInputs(a) + ModeMarker();
    if HashInput(a) == HashInput(b) {
      Cancel(before, TunnelBytes(a.tunnel.value, a.collisionCount), TunnelBytes(b.tunnel.value, b.collisionCount));
    }
  }

  lemma InputsSplit(i: Inputs)
    requires i.tunnel.Some?
    ensures HashInput(i) == (EarlierInputs(i) + ModeMarker()) + TunnelBytes(i.tunnel.value, i.collisionCount)
  {
    hide EarlierInputs, ModeMarker, TunnelBytes;
  }

  lemma Cancel(before: Text, a: Text, b: Text)
    requires before + a == before + b
    ensures a == b
  {
    assert (before + a)[|before|..] == a && (before + b)[|before|..] == b;
  }

  // What is written after the earlier inputs.
  function LaterInputs(i: Inputs): Text {
    match i.tunnel
    case Some(tunnel) => ModeMarker() + TunnelBytes(tunnel, i.collisionCount)
    case None => CollisionBytes(i.collisionCount)
  }

  lemma SameLaterInputs(a: Inputs, b: Inputs)
    requires LaterInputs(a) == LaterInputs(b)
    ensures HashInput(a) == HashInput(b) <==> EarlierInputs(a) == EarlierInputs(b)
  {
    assert HashInput(a) == EarlierInputs(a) + LaterInputs(a) && HashInput(b) == EarlierInputs(b) + LaterInputs(b);
    hide *;
    if HashInput(a) == HashInput(b) {
      CancelAfter(EarlierInputs(a), EarlierInputs(b), LaterInputs(a));
    }
  }

  lemma CancelAfter(a: Text, b: Text, after: Text)
    requires a + after == b + after
    ensures a == b
  {
    assert |a + after| == |b + after|;
    assert (a + after)[..|a|] == a && (b + after)[..|b|] == b;
  }

  // The unflagged input's service path is the flagged one's followed by the flag.
  predicate SpellsFlag(flagged: Inputs, unflagged: Inputs) {
    && flagged.useHttp11 && !unflagged.useHttp11
    && Optional(unflagged.servicePath) == Optional(flagged.servicePath) + Http11Flag()
  }

  // Inputs that differ only in the service path and the HTTP/1.1 flag feed the hasher the same
  // bytes exactly when they mean the same, or when one path spells out the other's flag.
  lemma PathAndFlagCollide(a: Inputs, b: Inputs)
    requires b == a.(servicePath := b.servicePath, useHttp11 := b.useHttp11)
    ensures HashInput(a) == HashInput(b) <==>
      || (a.useHttp11 == b.useHttp11 && Optional(a.servicePath) == Optional(b.servicePath))
      || SpellsFlag(a, b) || SpellsFlag(b, a)
  {
    SameLaterInputs(a, b);
    EarlierSplit(a);
    EarlierSplit(b);
    Cancels(a.template + Optional(a.cluster), PathAndFlag(a), PathAndFlag(b));
    PathsAndFlagsAgree(a, b);
    hide HashInput, EarlierInputs, PathAndFlag, LaterInputs, Optional, SpellsFlag;
  }

  function PathAndFlag(i: Inputs): Text {
    Optional(i.servicePath) + if i.useHttp11 then Http11Flag() else []
  }

  lemma EarlierSplit(i: Inputs)
    ensures EarlierInputs(i) == (i.template + Optional(i.cluster)) + PathAndFlag(i)
  {
    hide Optional, Http11Flag;
  }

  lemma PathsAndFlagsAgree(a: Inputs, b: Inputs)
    ensures PathAndFlag(a) == PathAndFlag(b) <==>
      || (a.useHttp11 == b.useHttp11 && Optional(a.servicePath) == Optional(b.servicePath))
      || SpellsFlag(a, b) || SpellsFlag(b, a)
  {
    hide Optional, Http11Flag;
    CancelsAfter(Optional(a.servicePath), Optional(b.servicePath), Http11Flag());
    assert Optional(a.servicePath) + [] == Optional(a.servicePath);
    assert Optional(b.servicePath) + [] == Optional(b.servicePath);
  }

  lemma Cancels(before: Text, a: Text, b: Text)
    ensures before + a == before + b <==> a == b
  {
    if before + a == before + b { Cancel(before, a, b); }
  }

  lemma CancelsAfter(a: Text, b: Text, after: Text)
    ensures a + after == b + after <==> a == b
  {
    if a + after == b + after { CancelAfter(a, b, after); }
  }

  // One input's cluster ends with bytes that start the other's service path.
  predicate ShiftsBoundary(a: Inputs, b: Inputs) {
    var shorter, longer := Optional(a.cluster), Optional(b.cluster);
    && shorter <= longer
    && Optional(a.servicePath) == longer[|shorter|..] + Optional(b.servicePath)
  }

  // Inputs that differ only in the cluster and the service path feed the hasher the same bytes
  // exactly when the boundary between the two can be shifted from one to the other.
  lemma ClusterAndPathCollide(a: Inputs, b: Inputs)
    requires b == a.(cluster := b.cluster, servicePath := b.servicePath)
    ensures HashInput(a) == HashInput(b) <==> ShiftsBoundary(a, b) || ShiftsBoundary(b, a)
  {
    SameLaterInputs(a, b);
    EarlierBoundary(a);
    EarlierBoundary(b);
    var flag := if a.useHttp11 then Http11Flag() else [];
    var ca, pa, cb, pb := Optional(a.cluster), Optional(a.servicePath), Optional(b.cluster), Optional(b.servicePath);
    SharedConcat(ca, pa, cb, pb);
    hide HashInput, EarlierInputs, Http11Flag, Optional, LaterInputs;
    CancelsAfter(a.template + (ca + pa), a.template + (cb + pb), flag);
    Cancels(a.template, ca + pa, cb + pb);
  }

  lemma EarlierBoundary(i: Inputs)
    ensures EarlierInputs(i) ==
      (i.template + (Optional(i.cluster) + Optional(i.servicePath))) + if i.useHttp11 then Http11Flag() else []
  {
    hide Optional, Http11Flag;
    assert i.template + Optional(i.cluster) + Optional(i.servicePath)
        == i.template + (Optional(i.cluster) + Optional(i.servicePath));
  }

  lemma SharedConcat(a: Text, x: Text, b: Text, y: Text)
    ensures a + x == b + y <==> (a <= b && x == b[|a|..] + y) || (b <= a && y == a[|b|..] + x)
  {
    if a + x == b + y {
      if |a| <= |b| {
        assert (b + y)[..|a|] == b[..|a|] == a;
        assert x == (a + x)[|a|..] == (b + y)[|a|..] == b[|a|..] + y;
      } else {
        assert (a + x)[..|b|] == a[..|b|] == b;
        assert y == (b + y)[|b|..] == (a + x)[|b|..] == a[|b|..] + x;
      }
    }
    if a <= b && x == b[|a|..] + y {
      assert a + (b[|a|..] + y) == (a + b[|a|..]) + y && a + b[|a|..] == b;
    }
    if b <= a && y == a[|b|..] + x {
      assert b + (a[|b|..] + x) == (b + a[|b|..]) + x && b + a[|b|..] == a;
    }
  }

  // Such inputs exist: a service path can spell out the HTTP/1.1 flag.
  lemma EarlierInputsCollide() returns (a: Inputs, b: Inputs)
    ensures a != b && HashInput(a) == HashInput(b)
    ensures b == a.(servicePath := None, useHttp11 := true) && !a.useHttp11
  {
    a := Inputs([], None, Some(Http11Flag()), false, None, None);
    b := a.(servicePath := None, useHttp11 := true);
  }

  // --- The digits the hash is written in ---

  const NUMBER_MAP: string := "456789bcdf"

  // Decimal digits, least significant first, each replaced from the map.
  function SafeEncode(v: nat): string {
    if v == 0 then "" else [NUMBER_MAP[v % 10]] + SafeEncode(v / 10)
  }

  method SafeEncodeU32(val: nat) returns (out: string)
    requires val < TWO_TO_32
    ensures out == SafeEncode(val)
  {
    var v := val;
    out := "";
    while v > 0
      invariant SafeEncode(val) == out + SafeEncode(v)
    {
      var n := v % 10;
      v := v / 10;
      out := out + [NUMBER_MAP[n]];
    }
  }

  function DigitOf(c: char): nat {
    if '4' <= c <= '9' then c as nat - '4' as nat
    else if c == 'b' then 6
    else if c == 'c' then 7
    else if c == 'd' then 8
    else 9
  }

  function SafeDecode(s: string): nat {
    if s == "" then 0 else DigitOf(s[0]) + 10 * SafeDecode(s[1..])
  }

  lemma DigitReads(n: nat)
    requires n < 10
    ensures DigitOf(NUMBER_MAP[n]) == n
  {
  }

  // Every number reads back from its digits, so no two hashes share a name suffix.
  lemma {:induction false} SafeEncodeReads(v: nat)
    ensures SafeDecode(SafeEncode(v)) == v
    decreases v
  {
    if v > 0 {
      SafeEncodeReads(v / 10);
      DigitReads(v % 10);
      assert SafeEncode(v)[1..] == SafeEncode(v / 10);
    }
  }

  // Only the ten characters of the alphabet are written, and each stands for one digit.
  lemma {:induction false} SafeEncodeWrites(v: nat, k: nat)
    requires k < |SafeEncode(v)|
    ensures SafeEncode(v)[k] in ['4', '5', '6', '7', '8', '9', 'b', 'c', 'd', 'f']
    decreases v
  {
    if k > 0 {
      SafeEncodeWrites(v / 10, k - 1);
      assert SafeEncode(v)[k] == SafeEncode(v / 10)[k - 1];
    } else {
      var n := v % 10;
      assert n == 0 || n == 1 || n == 2 || n == 3 || n == 4 || n == 5 || n == 6 || n == 7 || n == 8 || n == 9;
    }
  }

  function Pow10(k: nat): nat {
    if k == 0 then 1 else 10 * Pow10(k - 1)
  }

  lemma {:induction false} SafeEncodeLength(v: nat, k: nat)
    requires v < Pow10(k)
    ensures |SafeEncode(v)| <= k
    decreases k
  {
    if k > 0 && v > 0 {
      SafeEncodeLength(v / 10, k - 1);
    }
  }

  // A 32-bit hash takes at most ten characters; only zero takes none.
  lemma SafeEncodeFits(v: nat)
    requires v < TWO_TO_32
    ensures |SafeEncode(v)| <= 10
    ensures SafeEncode(v) == "" <==> v == 0
  {
    assert Pow10(5) == 100_000;
    assert Pow10(10) == 10 * (10 * (10 * (10 * (10 * Pow10(5)))));
    SafeEncodeLength(v, 10);
  }
}
