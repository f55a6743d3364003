/** The OTP service of backend/services/otpService.js with its in-memory
    fallback store (used when REDIS_URL is unset): codes keyed by
    'otp:' + mobile, each `setEx` scheduling its own deletion. */
module Otp {
  import opened Wrappers
  import opened Strings

  /** Seconds a code lives. */
  const OtpExpiry := 300

  function OtpKey(mobile: string): string { "otp:" + mobile }

  /** Two mobiles share a key only when they are equal. */
  lemma KeysDistinct(m1: string, m2: string)
    ensures OtpKey(m1) == OtpKey(m2) <==> m1 == m2
  {
    PrefixInjective("otp:", m1, m2);
  }

  function Pow10(k: nat): (p: nat)
    ensures p >= 1
  {
    if k == 0 then 1 else 10 * Pow10(k - 1)
  }

  lemma {:induction false} NatToStringLength(n: nat, k: nat)
    requires Pow10(k) <= n < 10 * Pow10(k)
    ensures |NatToString(n)| == k + 1
  {
    if k > 0 {
      NatToStringLength(n / 10, k - 1);
    }
  }

  /** Every number from 100000 to 999999 is written with six digits. */
  lemma SixDigits(n: nat)
    requires 100000 <= n < 1000000
    ensures |NatToString(n)| == 6
  {
    assert Pow10(1) == 10;
    assert Pow10(2) == 100;
    assert Pow10(3) == 1000;
    assert Pow10(4) == 10000;
    assert Pow10(5) == 100000;
    NatToStringLength(n, 5);
  }

  /** The six-digit code of a draw: 100000 plus the draw, rendered in decimal,
      the draw standing for the integer part of the scaled random number, in
      [0, 900000) (backend/services/otpService.js). */
  function CodeOf(draw: nat): (code: string)
    requires draw < 900000
    ensures IsDigitsOfLength(code, 6)
    ensures ParseInt(code) == Some(100000 + draw)
  {
    var n := 100000 + draw;
    SixDigits(n);
    ParseIntOfNatToString(n);
    NatToString(n)
  }

  /** The fallback store: the codes, and the keys whose deletion timers are
      pending, oldest first (every timer has the same 300 s delay, so they
      fire in the order they were set). */
  datatype FallbackState = FallbackState(codes: map<string, string>, timers: seq<string>)

  /** Storing a code with an expiry in the fallback store: the value is
      written and one deletion timer is queued for its key. */
  function Stored(st: FallbackState, key: string, value: string): (r: FallbackState)
    ensures r.codes == st.codes[key := value] && r.timers == st.timers + [key]
  {
    FallbackState(st.codes[key := value], st.timers + [key])
  }

  /** The oldest timer fires and deletes its key, whatever is stored there now. */
  function Fired(st: FallbackState): (r: FallbackState)
    requires st.timers != []
    ensures r.codes == st.codes - {st.timers[0]} && r.timers == st.timers[1..]
  {
    FallbackState(st.codes - {st.timers[0]}, st.timers[1..])
  }

  function Deleted(st: FallbackState, mobile: string): (r: FallbackState)
    ensures r.codes == st.codes - {OtpKey(mobile)} && r.timers == st.timers
  {
    FallbackState(st.codes - {OtpKey(mobile)}, st.timers)
  }

  /** Whether an OTP check succeeds: a code is stored for the mobile, it is
      not empty, and it equals the given one
      (backend/services/otpService.js:40-42). */
  predicate Verifies(st: FallbackState, mobile: string, otp: string) {
    var k := OtpKey(mobile);
    k in st.codes && st.codes[k] != "" && st.codes[k] == otp
  }

  class OtpService {
    var codes: map<string, string>
    var timers: seq<string>

    function State(): FallbackState
      reads this
    {
      FallbackState(codes, timers)
    }

    constructor ()
      ensures State() == FallbackState(map[], [])
    {
      codes := map[];
      timers := [];
    }

    /** `generateOTP(mobile)`: the store is not awaited; the code is returned. */
    method GenerateOTP(mobile: string, draw: nat) returns (otp: string)
      requires draw < 900000
      modifies this
      ensures otp == CodeOf(draw)
      ensures State() == Stored(old(State()), OtpKey(mobile), otp)
    {
      otp := NatToString(100000 + draw);
      var key := "otp:" + mobile;
      codes := codes[key := otp];
      timers := timers + [key];
    }

    method VerifyOTP(mobile: string, otp: string) returns (ok: bool)
      ensures ok <==> OtpKey(mobile) in codes && codes[OtpKey(mobile)] == otp && otp != ""
    {
      var key := "otp:" + mobile;
      ok := key in codes && codes[key] != "" && codes[key] == otp;
    }

    method DeleteOTP(mobile: string)
      modifies this
      ensures State() == Deleted(old(State()), mobile)
    {
      codes := codes - {"otp:" + mobile};
    }

    /** The oldest pending deletion timer fires. */
    method Expire()
      requires timers != []
      modifies this
      ensures State() == Fired(old(State()))
    {
      codes := codes - {timers[0]};
      timers := timers[1..];
    }
  }

  /** After `generateOTP(m)`, `verifyOTP(m, x)` holds exactly for the new code. */
  lemma GeneratedCodeVerifies(st: FallbackState, mobile: string, draw: nat, x: string)
    requires draw < 900000
    ensures Verifies(Stored(st, OtpKey(mobile), CodeOf(draw)), mobile, x) <==> x == CodeOf(draw)
  {
  }

  /** A second code for the same mobile replaces the first. */
  lemma NewCodeReplacesOld(st: FallbackState, mobile: string, c1: string, c2: string)
    requires c1 != c2
    ensures !Verifies(Stored(Stored(st, OtpKey(mobile), c1), OtpKey(mobile), c2), mobile, c1)
  {
  }

  /** After `deleteOTP(m)` no code verifies for `m`; other mobiles keep theirs. */
  lemma DeleteOnlyItsMobile(st: FallbackState, mobile: string, other: string, x: string)
    ensures !Verifies(Deleted(st, mobile), mobile, x)
    ensures other != mobile ==> (Verifies(Deleted(st, mobile), other, x) <==> Verifies(st, other, x))
  {
    KeysDistinct(mobile, other);
  }

  /** The timer of an older code also deletes a newer code for the same
      mobile: with no timer pending before, requesting two codes and letting
      the first timer fire leaves no valid code. */
  lemma StaleTimerDeletesNewerCode(st: FallbackState, mobile: string, c1: string, c2: string)
    requires st.timers == []
    ensures var s2 := Stored(Stored(st, OtpKey(mobile), c1), OtpKey(mobile), c2);
      s2.timers != [] && !Verifies(Fired(s2), mobile, c2) && Verifies(s2, mobile, c2) == (c2 != "")
  {
    var s2 := Stored(Stored(st, OtpKey(mobile), c1), OtpKey(mobile), c2);
    assert s2.timers == [OtpKey(mobile), OtpKey(mobile)];
  }
}
