/** The bytes a handshake proof covers, and the window of nonces a verifier remembers. */
module Handshake {
  import opened Wrappers
  import opened Machine
  import Sequences

  type Byte = n: int | 0 <= n < 256
  type U32 = n: int | 0 <= n <= U32_MAX

  const PROTOCOL_VERSION: U32 := 1
  const NONCE_BYTES := 32
  const NONCE_TTL := 600_000_000_000 // ten minutes, in nanoseconds
  const MAX_CACHED_NONCES := 4096

  // ---------- the proof material ----------

  const DOMAIN_TEXT := "mission-control-handshake-v1\0"

  function Domain(): seq<Byte> {
    seq(|DOMAIN_TEXT|, i requires 0 <= i < |DOMAIN_TEXT| => DOMAIN_TEXT[i] as int % 256)
  }

  function LittleEndian(n: U32): (b: seq<Byte>)
    ensures |b| == 4
  {
    [n % 256, n / 256 % 256, n / 65_536 % 256, n / 16_777_216]
  }

  /** `len as u32` keeps the low 32 bits. */
  function Length32<T>(s: seq<T>): U32 {
    |s| % (U32_MAX + 1)
  }

  function VersionBytes(versions: seq<U32>): seq<Byte> {
    if versions == [] then [] else LittleEndian(versions[0]) + VersionBytes(versions[1..])
  }

  function Counted(s: seq<Byte>): seq<Byte> {
    LittleEndian(Length32(s)) + s
  }

  function Framed(domain: seq<Byte>, installId: seq<Byte>, nonce: seq<Byte>, versions: seq<U32>): seq<Byte> {
    domain + Body(installId, nonce, versions)
  }

  function Body(installId: seq<Byte>, nonce: seq<Byte>, versions: seq<U32>): seq<Byte> {
    Counted(installId) + (Counted(nonce) + VersionList(versions))
  }

  function VersionList(versions: seq<U32>): seq<Byte> {
    LittleEndian(Length32(versions)) + VersionBytes(versions)
  }

  /** The byte string fed to the MAC. */
  function Material(installId: seq<Byte>, nonce: seq<Byte>, versions: seq<U32>): seq<Byte> {
    Framed(Domain(), installId, nonce, versions)
  }

  /** A MAC under construction: the bytes fed so far. */
  class Mac {
    var fed: seq<Byte>

    constructor ()
      ensures fed == []
    {
      fed := [];
    }

    method Update(bytes: seq<Byte>)
      modifies this
      ensures fed == old(fed) + bytes
    {
      fed := fed + bytes;
    }
  }

  method UpdateProof(mac: Mac, installId: seq<Byte>, nonce: seq<Byte>, versions: seq<U32>)
    modifies mac
    ensures mac.fed == old(mac.fed) + Material(installId, nonce, versions)
  {
    mac.Update(Domain());
    mac.Update(LittleEndian(Length32(installId)));
    mac.Update(installId);
    mac.Update(LittleEndian(Length32(nonce)));
    mac.Update(nonce);
    mac.Update(LittleEndian(Length32(versions)));
    ghost var head := mac.fed;
    Grouped(old(mac.fed), Domain(), LittleEndian(Length32(installId)), installId, LittleEndian(Length32(nonce)), nonce,
            LittleEndian(Length32(versions)), VersionBytes(versions));
    for i := 0 to |versions|
      invariant mac.fed + VersionBytes(versions[i..]) == head + VersionBytes(versions)
    {
      assert versions[i..][1..] == versions[i + 1..];
      mac.Update(LittleEndian(versions[i]));
    }
    assert mac.fed == head + VersionBytes(versions);
  }

  lemma Grouped(z: seq<Byte>, a: seq<Byte>, b: seq<Byte>, c: seq<Byte>, d: seq<Byte>, e: seq<Byte>, f: seq<Byte>,
                g: seq<Byte>)
    ensures z + a + b + c + d + e + f + g == z + (a + ((b + c) + ((d + e) + (f + g))))
  {
  }

  lemma LittleEndianInjective(a: U32, b: U32)
    requires LittleEndian(a) == LittleEndian(b)
    ensures a == b
  {
    LittleEndianValue(a);
    LittleEndianValue(b);
  }

  lemma LittleEndianValue(n: U32)
    ensures var b := LittleEndian(n);
            n == b[0] as int + 256 * (b[1] as int) + 65_536 * (b[2] as int) + 16_777_216 * (b[3] as int)
  {
    SecondQuotient(n);
    SecondQuotient(n / 256);
    assert n / 16_777_216 == n / 256 / 65_536;
  }

  lemma SecondQuotient(n: nat)
    ensures n / 65_536 == n / 256 / 256
  {
  }

  /** Equal-length heads of equal strings are equal, and so are the tails. */
  lemma Split<T>(a: seq<T>, x: seq<T>, b: seq<T>, y: seq<T>)
    requires |a| == |b| && a + x == b + y
    ensures a == b && x == y
  {
    assert a == (a + x)[..|a|] && b == (b + y)[..|b|];
    assert x == (a + x)[|a|..] && y == (b + y)[|b|..];
  }

  lemma PrefixedInjective(m: U32, x: seq<Byte>, n: U32, y: seq<Byte>)
    requires LittleEndian(m) + x == LittleEndian(n) + y
    ensures m == n && x == y
  {
    Split(LittleEndian(m), x, LittleEndian(n), y);
    LittleEndianInjective(m, n);
  }

  lemma ShortLength<T>(a: seq<T>, b: seq<T>)
    requires |a| <= U32_MAX && |b| <= U32_MAX && Length32(a) == Length32(b)
    ensures |a| == |b|
  {
  }

  lemma CountedInjective(a: seq<Byte>, x: seq<Byte>, b: seq<Byte>, y: seq<Byte>)
    requires |a| <= U32_MAX && |b| <= U32_MAX && Counted(a) + x == Counted(b) + y
    ensures a == b && x == y
  {
    Sequences.Regroup(LittleEndian(Length32(a)), a, x);
    Sequences.Regroup(LittleEndian(Length32(b)), b, y);
    PrefixedInjective(Length32(a), a + x, Length32(b), b + y);
    ShortLength(a, b);
    Split(a, x, b, y);
  }

  lemma {:induction false} VersionBytesInjective(v: seq<U32>, w: seq<U32>)
    requires |v| == |w| && VersionBytes(v) == VersionBytes(w)
    ensures v == w
  {
    if v != [] {
      PrefixedInjective(v[0], VersionBytes(v[1..]), w[0], VersionBytes(w[1..]));
      VersionBytesInjective(v[1..], w[1..]);
      assert v == [v[0]] + v[1..] && w == [w[0]] + w[1..];
    }
  }

  lemma FramedInjective(d: seq<Byte>, id: seq<Byte>, nonce: seq<Byte>, versions: seq<U32>,
                        id': seq<Byte>, nonce': seq<Byte>, versions': seq<U32>)
    requires |id| <= U32_MAX && |nonce| <= U32_MAX && |versions| <= U32_MAX
    requires |id'| <= U32_MAX && |nonce'| <= U32_MAX && |versions'| <= U32_MAX
    requires Framed(d, id, nonce, versions) == Framed(d, id', nonce', versions')
    ensures id == id' && nonce == nonce' && versions == versions'
  {
    Split(d, Body(id, nonce, versions), d, Body(id', nonce', versions'));
    CountedInjective(id, Counted(nonce) + VersionList(versions), id', Counted(nonce') + VersionList(versions'));
    CountedInjective(nonce, VersionList(versions), nonce', VersionList(versions'));
    VersionListInjective(versions, versions');
  }

  /** No two handshakes with 32-bit lengths feed the MAC the same bytes. */
  lemma MaterialInjective(id: seq<Byte>, nonce: seq<Byte>, versions: seq<U32>,
                          id': seq<Byte>, nonce': seq<Byte>, versions': seq<U32>)
    requires |id| <= U32_MAX && |nonce| <= U32_MAX && |versions| <= U32_MAX
    requires |id'| <= U32_MAX && |nonce'| <= U32_MAX && |versions'| <= U32_MAX
    requires Material(id, nonce, versions) == Material(id', nonce', versions')
    ensures id == id' && nonce == nonce' && versions == versions'
  {
    FramedInjective(Domain(), id, nonce, versions, id', nonce', versions');
  }

  lemma VersionListInjective(v: seq<U32>, w: seq<U32>)
    requires |v| <= U32_MAX && |w| <= U32_MAX
    requires VersionList(v) == VersionList(w)
    ensures v == w
  {
    PrefixedInjective(Length32(v), VersionBytes(v), Length32(w), VersionBytes(w));
    ShortLength(v, w);
    VersionBytesInjective(v, w);
  }

  // ---------- the nonce window ----------

  datatype Entry = Entry(nonce: seq<Byte>, at: nat)

  datatype Hello = Hello(installId: seq<Byte>, versions: seq<U32>, nonce: seq<Byte>, proof: seq<Byte>)

  datatype Error = AuthFailed | ReplayedNonce | IncompatibleProtocol

  /** `now.saturating_duration_since(at) >= NONCE_TTL` */
  predicate Expired(e: Entry, now: nat) {
    now >= e.at + NONCE_TTL
  }

  /** Eviction looks at the front of the queue only. */
  function Evict(q: seq<Entry>, now: nat): seq<Entry> {
    if q != [] && Expired(q[0], now) then Evict(q[1..], now) else q
  }

  /** Everything ever accepted that is still within the window. */
  function Live(accepted: seq<Entry>, now: nat): seq<Entry> {
    if accepted == [] then []
    else (if Expired(accepted[0], now) then [] else [accepted[0]]) + Live(accepted[1..], now)
  }

  predicate Ascending(q: seq<Entry>) {
    forall i, j :: 0 <= i < j < |q| ==> q[i].at <= q[j].at
  }

  /** A nonce is never accepted twice within the window. */
  predicate Spaced(accepted: seq<Entry>) {
    forall i, j :: 0 <= i < j < |accepted| && accepted[i].nonce == accepted[j].nonce
                   ==> accepted[i].at + NONCE_TTL <= accepted[j].at
  }

  predicate Remembered(q: seq<Entry>, nonce: seq<Byte>) {
    exists i :: 0 <= i < |q| && q[i].nonce == nonce
  }

  lemma {:induction false} AllLive(q: seq<Entry>, now: nat)
    requires Ascending(q) && (q == [] || !Expired(q[0], now))
    ensures Live(q, now) == q
  {
    if |q| > 1 {
      assert q[0].at <= q[1].at;
      AllLive(q[1..], now);
    }
  }

  /** In arrival order, dropping from the front drops exactly what has expired. */
  lemma {:induction false} EvictIsLive(q: seq<Entry>, now: nat)
    requires Ascending(q)
    ensures Evict(q, now) == Live(q, now)
  {
    if q != [] {
      if Expired(q[0], now) {
        EvictIsLive(q[1..], now);
      } else {
        AllLive(q, now);
      }
    }
  }

  lemma {:induction false} LiveLater(q: seq<Entry>, earlier: nat, now: nat)
    requires earlier <= now
    ensures Live(Live(q, earlier), now) == Live(q, now)
  {
    if q != [] {
      LiveLater(q[1..], earlier, now);
      var tail := Live(q[1..], earlier);
      if Expired(q[0], earlier) {
        assert Live(q, earlier) == tail;
      } else {
        assert Live(q, earlier)[1..] == tail;
      }
    }
  }

  lemma {:induction false} LiveAppend(q: seq<Entry>, e: Entry, now: nat)
    ensures Live(q + [e], now) == Live(q, now) + if Expired(e, now) then [] else [e]
  {
    if q == [] {
      assert q + [e] == [e];
    } else {
      LiveAppend(q[1..], e, now);
      assert (q + [e])[1..] == q[1..] + [e];
    }
  }

  lemma {:induction false} LiveMembers(q: seq<Entry>, now: nat, i: nat)
    requires i < |q| && !Expired(q[i], now)
    ensures Remembered(Live(q, now), q[i].nonce)
  {
    if i == 0 {
      assert Live(q, now)[0] == q[0];
    } else {
      LiveMembers(q[1..], now, i - 1);
      var tail := Live(q[1..], now);
      var k :| 0 <= k < |tail| && tail[k].nonce == q[i].nonce;
      var shift := if Expired(q[0], now) then 0 else 1;
      assert Live(q, now)[k + shift] == tail[k];
    }
  }

  lemma LiveAscending(q: seq<Entry>, now: nat)
    requires Ascending(q)
    ensures Ascending(Live(q, now))
  {
    EvictIsLive(q, now);
    EvictSuffix(q, now);
  }

  lemma {:induction false} EvictSuffix(q: seq<Entry>, now: nat)
    ensures |Evict(q, now)| <= |q| && Evict(q, now) == q[|q| - |Evict(q, now)|..]
  {
    if q != [] && Expired(q[0], now) {
      EvictSuffix(q[1..], now);
    }
  }

  /** A nonce outside the live window may be accepted again without breaking the spacing. */
  lemma AcceptKeepsSpacing(accepted: seq<Entry>, e: Entry)
    requires Spaced(accepted) && !Remembered(Live(accepted, e.at), e.nonce)
    ensures Spaced(accepted + [e])
  {
    var all := accepted + [e];
    forall i, j | 0 <= i < j < |all| && all[i].nonce == all[j].nonce ensures all[i].at + NONCE_TTL <= all[j].at {
      if j == |accepted| && !Expired(accepted[i], e.at) {
        LiveMembers(accepted, e.at, i);
      }
    }
  }

  /**
   * What a verifier knows at its last reading of the clock: the cache is exactly the accepted nonces of the
   * last window, no nonce was ever accepted twice within one, and the cache is bounded.
   */
  predicate Window(accepted: seq<Entry>, cache: seq<Entry>, clock: nat) {
    && Ascending(accepted) && (forall i :: 0 <= i < |accepted| ==> accepted[i].at <= clock)
    && cache == Live(accepted, clock)
    && Spaced(accepted)
    && |cache| <= MAX_CACHED_NONCES
  }

  /** Time passing: front-only eviction keeps the cache exact. */
  lemma WindowSlides(accepted: seq<Entry>, cache: seq<Entry>, earlier: nat, now: nat)
    requires Window(accepted, cache, earlier) && earlier <= now
    ensures Window(accepted, Evict(cache, now), now)
  {
    LiveAscending(accepted, earlier);
    EvictIsLive(cache, now);
    EvictSuffix(cache, now);
    LiveLater(accepted, earlier, now);
  }

  /** Accepting a nonce the cache does not hold. */
  lemma WindowAccepts(accepted: seq<Entry>, cache: seq<Entry>, e: Entry)
    requires Window(accepted, cache, e.at) && !Remembered(cache, e.nonce) && |cache| < MAX_CACHED_NONCES
    ensures Window(accepted + [e], cache + [e], e.at)
  {
    LiveAppend(accepted, e, e.at);
    AcceptKeepsSpacing(accepted, e);
  }

  class Verifier {
    const installId: seq<Byte>
    var nonces: seq<Entry>
    ghost var accepted: seq<Entry>
    ghost var clock: nat

    ghost predicate Valid()
      reads this
    {
      Window(accepted, nonces, clock)
    }

    constructor (installId: seq<Byte>)
      ensures Valid() && accepted == [] && this.installId == installId
    {
      this.installId := installId;
      nonces, accepted, clock := [], [], 0;
    }

    method RemoveExpired(now: nat)
      modifies this`nonces
      ensures nonces == Evict(old(nonces), now)
    {
      while nonces != [] && Expired(nonces[0], now)
        invariant Evict(nonces, now) == Evict(old(nonces), now)
        decreases |nonces|
      {
        nonces := nonces[1..];
      }
    }

    /** The verdict, from what is still cached after eviction. */
    ghost function Verdict(h: Hello, cached: seq<Entry>, secret: Option<seq<Byte>>,
                           hmac: (seq<Byte>, seq<Byte>) -> seq<Byte>): Result<U32, Error>
    {
      if PROTOCOL_VERSION !in h.versions then Err(IncompatibleProtocol)
      else if h.installId != installId || |h.nonce| != NONCE_BYTES then Err(AuthFailed)
      else if Remembered(cached, h.nonce) then Err(ReplayedNonce)
      else if |cached| == MAX_CACHED_NONCES || secret.None?
              || h.proof != hmac(secret.value, Material(h.installId, h.nonce, h.versions)) then Err(AuthFailed)
      else Ok(PROTOCOL_VERSION)
    }

    method Verify(h: Hello, now: nat, secret: Option<seq<Byte>>, hmac: (seq<Byte>, seq<Byte>) -> seq<Byte>)
      returns (r: Result<U32, Error>)
      modifies this
      ensures r == Verdict(h, Evict(old(nonces), now), secret, hmac)
      ensures clock == now
      ensures r.Ok? ==> accepted == old(accepted) + [Entry(h.nonce, now)]
                        && nonces == Evict(old(nonces), now) + [Entry(h.nonce, now)]
      ensures r.Err? ==> accepted == old(accepted) && nonces == Evict(old(nonces), now)
      ensures old(Valid()) && old(clock) <= now ==> Valid()
    {
      RemoveExpired(now);
      clock := now;
      ghost var orderly := old(Valid()) && old(clock) <= now;
      if orderly {
        WindowSlides(accepted, old(nonces), old(clock), now);
      }
      r := Judge(h, secret, hmac);
      if r.Ok? {
        if orderly {
          WindowAccepts(accepted, nonces, Entry(h.nonce, now));
        }
        nonces := nonces + [Entry(h.nonce, now)];
        accepted := accepted + [Entry(h.nonce, now)];
      }
    }

    /** The checks after eviction, in the order the source makes them. */
    method Judge(h: Hello, secret: Option<seq<Byte>>, hmac: (seq<Byte>, seq<Byte>) -> seq<Byte>)
      returns (r: Result<U32, Error>)
      ensures r == Verdict(h, nonces, secret, hmac)
    {
      if PROTOCOL_VERSION !in h.versions {
        return Err(IncompatibleProtocol);
      }
      if h.installId != installId {
        return Err(AuthFailed);
      }
      if |h.nonce| != NONCE_BYTES {
        return Err(AuthFailed);
      }
      if exists i :: 0 <= i < |nonces| && nonces[i].nonce == h.nonce {
        return Err(ReplayedNonce);
      }
      if |nonces| == MAX_CACHED_NONCES {
        return Err(AuthFailed);
      }
      if secret.None? {
        return Err(AuthFailed);
      }
      var mac := new Mac();
      UpdateProof(mac, h.installId, h.nonce, h.versions);
      assert mac.fed == Material(h.installId, h.nonce, h.versions);
      if h.proof != hmac(secret.value, mac.fed) {
        return Err(AuthFailed);
      }
      return Ok(PROTOCOL_VERSION);
    }
  }
}
