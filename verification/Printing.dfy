/** The three places where the gateway prints a value into text, each with a reader that undoes it. */
module Printing {
  import opened Prelude
  import opened Config

  // ---------------------------------------------------------------- splitting at a separator

  /** The text before and after the first `c`; all of it and nothing when there is none. */
  function SplitAt(s: string, c: char): (r: (string, string))
  {
    if s == "" then ("", "")
    else if s[0] == c then ("", s[1..])
    else
      var (a, b) := SplitAt(s[1..], c);
      ([s[0]] + a, b)
  }

  lemma {:induction false} SplitJoined(a: string, c: char, b: string)
    ensures SplitAt(a + [c] + b, c) == (a, b) <==> c !in a
    ensures SplitAt(a, c) == (a, "") <==> c !in a
    ensures c !in SplitAt(a + [c] + b, c).0 && c !in SplitAt(a, c).0
  {
    if a != "" {
      SplitJoined(a[1..], c, b);
      assert (a + [c] + b)[1..] == a[1..] + [c] + b;
      assert a == [a[0]] + a[1..];
      if c !in a {
        assert forall x | x in a[1..] :: x in a;
      } else if a[0] != c {
        assert c in a[1..];
      }
    } else {
      assert (a + [c] + b)[1..] == b;
    }
  }

  // ---------------------------------------------------------------- upstream URL

  /** GatewayHandler::onEOM: a rewrite replaces the path and keeps the query string. */
  function UpstreamUrl(rewrite: Option<RewriteConfig>, url: string, query: string): (r: string)
  {
    if rewrite.Some? && rewrite.value.path != "" then
      if query != "" then rewrite.value.path + "?" + query else rewrite.value.path
    else
      url
  }

  /** Reading the rewritten URL up to its first `?` (section 3.4 of RFC 3986) gives back the configured path
      and the client's query exactly when the configured path has no `?` of its own. */
  lemma RewrittenUrlSplits(rw: RewriteConfig, url: string, query: string)
    requires rw.path != ""
    ensures SplitAt(UpstreamUrl(Some(rw), url, query), '?') == (rw.path, query) <==> '?' !in rw.path
  {
    SplitJoined(rw.path, '?', query);
    assert rw.path + "?" + query == rw.path + ['?'] + query;
  }

  // ---------------------------------------------------------------- decimal and hexadecimal numbers

  const DIGITS := "0123456789abcdef"

  function DigitValue(c: char): nat {
    if '0' <= c <= '9' then c as int - '0' as int
    else if 'a' <= c <= 'f' then c as int - 'a' as int + 10
    else 0
  }

  lemma DigitReads(d: nat)
    requires d < 16
    ensures DigitValue(DIGITS[d]) == d
  {
  }

  function ReadNumber(base: nat, s: string): nat {
    if s == "" then 0 else ReadNumber(base, s[..|s| - 1]) * base + DigitValue(s[|s| - 1])
  }

  /** `{}` of an unsigned number. */
  function Decimal(n: nat): (r: string)
    ensures r != "" && forall c | c in r :: '0' <= c <= '9'
  {
    if n < 10 then [DIGITS[n]] else Decimal(n / 10) + [DIGITS[n % 10]]
  }

  lemma {:induction false} DecimalReads(n: nat)
    ensures ReadNumber(10, Decimal(n)) == n
  {
    if n < 10 {
      assert ReadNumber(10, "") == 0;
      assert [DIGITS[n]][..0] == "";
    } else {
      DecimalReads(n / 10);
      assert Decimal(n)[..|Decimal(n)| - 1] == Decimal(n / 10);
    }
  }

  function Pow16(w: nat): nat {
    if w == 0 then 1 else 16 * Pow16(w - 1)
  }

  /** `{:0wx}` of a number below 16 to the `w`. */
  function Hex(n: nat, w: nat): (r: string)
    ensures |r| == w && forall c | c in r :: c in DIGITS
  {
    if w == 0 then "" else Hex(n / 16, w - 1) + [DIGITS[n % 16]]
  }

  lemma {:induction false} HexReads(n: nat, w: nat)
    requires n < Pow16(w)
    ensures ReadNumber(16, Hex(n, w)) == n
  {
    if w == 0 {
    } else {
      assert n / 16 < Pow16(w - 1);
      HexReads(n / 16, w - 1);
      assert Hex(n, w)[..w - 1] == Hex(n / 16, w - 1);
      DigitReads(n % 16);
    }
  }

  type UInt64 = n: int | 0 <= n < 0x1_0000_0000_0000_0000

  /** HeaderFilter::generateRequestId over the two random words it draws. */
  function RequestId(hi: UInt64, lo: UInt64): (r: string)
    ensures |r| == 32 && forall c | c in r :: c in DIGITS
  {
    Hex(hi, 16) + Hex(lo, 16)
  }

  /** A request id is 32 lower-case hexadecimal digits that read back to its two words. */
  lemma RequestIdReads(hi: UInt64, lo: UInt64)
    ensures ReadNumber(16, RequestId(hi, lo)[..16]) == hi
    ensures ReadNumber(16, RequestId(hi, lo)[16..]) == lo
  {
    assert Pow16(8) == 0x1_0000_0000;
    assert Pow16(16) == 0x1_0000_0000_0000_0000;
    HexReads(hi, 16);
    HexReads(lo, 16);
    assert RequestId(hi, lo)[..16] == Hex(hi, 16);
    assert RequestId(hi, lo)[16..] == Hex(lo, 16);
  }

  // ---------------------------------------------------------------- Host

  /** GatewayHandler::onEOM: the host of the target, with its port unless that is the protocol's default. */
  function HostFor(protocol: string, host: string, port: UInt16): (r: string)
  {
    if (protocol == "HTTP" && port == 80) || (protocol == "HTTPS" && port == 443) then host
    else host + ":" + Decimal(port)
  }

  function DefaultPort(protocol: string): nat {
    if protocol == "HTTPS" then 443 else 80
  }

  /** Host as its receiver reads it (sections 4.2.1, 4.2.2 and 7.2 of RFC 9110). */
  function ReadHost(protocol: string, text: string): (string, nat) {
    var (host, port) := SplitAt(text, ':');
    (host, if port == "" then DefaultPort(protocol) else ReadNumber(10, port))
  }

  /** The receiver recovers host and port exactly when the configured host has no colon of its own. */
  lemma HostReads(protocol: string, host: string, port: UInt16)
    ensures ReadHost(protocol, HostFor(protocol, host, port)) == (host, port) <==> ':' !in host
  {
    SplitJoined(host, ':', Decimal(port));
    assert host + ":" + Decimal(port) == host + [':'] + Decimal(port);
    DecimalReads(port);
  }
}
