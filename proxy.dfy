/**
 * Parsing of the proxy connection string "host:port:username:password" that the
 * proxy service returns, into the descriptor used for validation and for the
 * browser profile (build_proxy_payload in google_scrapping.py).
 */
module Proxy {
  import opened Wrappers

  const Colon: char := ':'

  /** The proxy descriptor: the dictionary with keys type, host, port, username, password. */
  datatype ProxyPayload = ProxyPayload(kind: string, host: string, port: int, username: string, password: string)

  /** Number of occurrences of `sep` in `s`. */
  function Count(s: string, sep: char): nat
  {
    if s == [] then 0 else (if s[0] == sep then 1 else 0) + Count(s[1..], sep)
  }

  /** Python's `s.split(sep)` for a one-character separator: never empty, empty fields kept. */
  function Split(s: string, sep: char): (parts: seq<string>)
    ensures |parts| >= 1
  {
    if s == [] then [""]
    else
      var rest := Split(s[1..], sep);
      if s[0] == sep then [""] + rest else [[s[0]] + rest[0]] + rest[1..]
  }

  /** Python's `sep.join(parts)`, the inverse of Split. */
  function Join(parts: seq<string>, sep: char): string
  {
    if parts == [] then ""
    else if |parts| == 1 then parts[0]
    else parts[0] + [sep] + Join(parts[1..], sep)
  }

  /** Splitting yields one more field than there are separators. */
  lemma {:induction false} SplitCount(s: string, sep: char)
    ensures |Split(s, sep)| == Count(s, sep) + 1
  {
    if s != [] {
      SplitCount(s[1..], sep);
    }
  }

  /** No field produced by Split contains the separator. */
  lemma {:induction false} SplitFieldsFree(s: string, sep: char)
    ensures forall k :: 0 <= k < |Split(s, sep)| ==> sep !in Split(s, sep)[k]
  {
    if s != [] {
      SplitFieldsFree(s[1..], sep);
    }
  }

  /** Joining the fields back with the separator gives the original string. */
  lemma {:induction false} JoinSplit(s: string, sep: char)
    ensures Join(Split(s, sep), sep) == s
  {
    if s != [] {
      var rest := Split(s[1..], sep);
      JoinSplit(s[1..], sep);
      if s[0] == sep {
        assert Split(s, sep) == [""] + rest;
        assert ([""] + rest)[1..] == rest;
      } else {
        var parts := [[s[0]] + rest[0]] + rest[1..];
        assert Split(s, sep) == parts;
        if |rest| == 1 {
          assert Join(rest, sep) == rest[0];
        } else {
          assert parts[1..] == rest[1..];
          assert Join(rest, sep) == rest[0] + [sep] + Join(rest[1..], sep);
        }
      }
    }
  }

  /** Splitting a join of separator-free fields gives the fields back. */
  lemma {:induction false} SplitJoin(parts: seq<string>, sep: char)
    requires |parts| >= 1
    requires forall k :: 0 <= k < |parts| ==> sep !in parts[k]
    ensures Split(Join(parts, sep), sep) == parts
  {
    if |parts| == 1 {
      SplitFree(parts[0], sep);
    } else {
      SplitJoin(parts[1..], sep);
      SplitPrefix(parts[0], Join(parts[1..], sep), sep);
    }
  }

  /** A separator-free string is a single field. */
  lemma {:induction false} SplitFree(s: string, sep: char)
    requires sep !in s
    ensures Split(s, sep) == [s]
  {
    if s != [] {
      SplitFree(s[1..], sep);
      assert [s[0]] + s[1..] == s;
    }
  }

  /** Splitting `head + sep + tail` for a separator-free `head`. */
  lemma {:induction false} SplitPrefix(head: string, tail: string, sep: char)
    requires sep !in head
    ensures Split(head + [sep] + tail, sep) == [head] + Split(tail, sep)
  {
    if head == [] {
      assert [sep] + tail == head + [sep] + tail;
      assert ([sep] + tail)[1..] == tail;
    } else {
      SplitPrefix(head[1..], tail, sep);
      assert (head + [sep] + tail)[1..] == head[1..] + [sep] + tail;
      assert [head[0]] + head[1..] == head;
    }
  }

  predicate IsDigit(c: char)
  {
    '0' <= c <= '9'
  }

  /** Value of a string of decimal digits, most significant first. */
  function DigitsValue(s: string): nat
    requires forall k :: 0 <= k < |s| ==> IsDigit(s[k])
  {
    if s == [] then 0
    else
      var last := s[|s| - 1];
      assert IsDigit(last);
      10 * DigitsValue(s[..|s| - 1]) + (last as int - '0' as int)
  }

  /** CPython's default limit on the digits `int()` converts from a string (sys.int_max_str_digits). */
  const MaxIntDigits: nat := 4300

  /**
   * `int(text)` restricted to non-empty ASCII decimal digits, at most MaxIntDigits of
   * them (leading zeros included); None stands for the ValueError.
   */
  function ParseNat(text: string): (r: Option<nat>)
    ensures r.Some? <==> 0 < |text| <= MaxIntDigits && forall k :: 0 <= k < |text| ==> IsDigit(text[k])
  {
    if 0 < |text| <= MaxIntDigits && forall k :: 0 <= k < |text| ==> IsDigit(text[k])
    then Some(DigitsValue(text))
    else None
  }

  /** Decimal rendering of a natural number, without leading zeros. */
  function ShowNat(n: nat): (s: string)
    ensures s != [] && forall k :: 0 <= k < |s| ==> IsDigit(s[k])
    ensures Colon !in s
  {
    if n < 10 then ['0' + n as char]
    else ShowNat(n / 10) + ['0' + (n % 10) as char]
  }

  /** Parsing the rendering of a port number gives that number back. */
  lemma {:induction false} ParseShow(n: nat)
    requires |ShowNat(n)| <= MaxIntDigits
    ensures ParseNat(ShowNat(n)) == Some(n)
  {
    var s := ShowNat(n);
    if n >= 10 {
      ParseShow(n / 10);
      assert s[..|s| - 1] == ShowNat(n / 10);
      assert DigitsValue(s) == 10 * DigitsValue(ShowNat(n / 10)) + n % 10;
    }
    assert DigitsValue(s) == n;
  }

  /**
   * build_proxy_payload: None when the string is missing or empty, when the
   * protocol is empty, when there are fewer than four ':'-separated fields, or when
   * the port field is not a number; otherwise the first four fields, in order.
   */
  function BuildProxyPayload(proxyItem: Option<string>, protocol: string): (r: Option<ProxyPayload>)
    ensures r.Some? <==>
      proxyItem.Some? && proxyItem.value != "" && protocol != "" &&
      |Split(proxyItem.value, Colon)| >= 4 && ParseNat(Split(proxyItem.value, Colon)[1]).Some?
    ensures r.Some? ==>
      var parts := Split(proxyItem.value, Colon);
      r.value.kind == protocol && r.value.host == parts[0] && r.value.port == ParseNat(parts[1]).value &&
      r.value.username == parts[2] && r.value.password == parts[3]
  {
    if proxyItem.None? || proxyItem.value == "" || protocol == "" then None
    else
      var parts := Split(proxyItem.value, Colon);
      if |parts| < 4 then None
      else
        match ParseNat(parts[1])
        case None => None
        case Some(port) => Some(ProxyPayload(protocol, parts[0], port, parts[2], parts[3]))
  }

  /** A string with fewer than three colons never yields a payload. */
  lemma FewerThanFourFields(s: string, protocol: string)
    requires Count(s, Colon) < 3
    ensures BuildProxyPayload(Some(s), protocol) == None
  {
    SplitCount(s, Colon);
  }

  /**
   * Round trip: rendering a descriptor as "host:port:username:password" and parsing
   * it gives the descriptor back, whatever follows a fifth colon.
   */
  lemma RenderParse(host: string, port: nat, username: string, password: string, extra: seq<string>, protocol: string)
    requires Colon !in host && Colon !in username && Colon !in password
    requires forall k :: 0 <= k < |extra| ==> Colon !in extra[k]
    requires protocol != "" && |ShowNat(port)| <= MaxIntDigits
    ensures BuildProxyPayload(Some(Join([host, ShowNat(port), username, password] + extra, Colon)), protocol)
         == Some(ProxyPayload(protocol, host, port, username, password))
  {
    var fields := [host, ShowNat(port), username, password] + extra;
    SplitJoin(fields, Colon);
    ParseShow(port);
    assert fields[1] == ShowNat(port);
    assert Join(fields, Colon) != "" by {
      assert Join(fields, Colon) == fields[0] + [Colon] + Join(fields[1..], Colon);
    }
  }

  /** Whatever the string, a payload carries fields that the string contains verbatim. */
  lemma PayloadFieldsFromString(s: string, protocol: string)
    requires BuildProxyPayload(Some(s), protocol).Some?
    ensures var p := BuildProxyPayload(Some(s), protocol).value;
      Colon !in p.host && Colon !in p.username && Colon !in p.password &&
      p.host + [Colon] <= s
  {
    SplitFieldsFree(s, Colon);
    JoinSplit(s, Colon);
    var parts := Split(s, Colon);
    assert Join(parts, Colon) == parts[0] + [Colon] + Join(parts[1..], Colon);
  }

  /** The descriptor parsed from "1.2.3.4:8080:user1:pass1" under protocol "http". */
  lemma ExampleDescriptor()
    ensures BuildProxyPayload(Some("1.2.3.4:8080:user1:pass1"), "http")
         == Some(ProxyPayload("http", "1.2.3.4", 8080, "user1", "pass1"))
  {
    var fields: seq<string> := ["1.2.3.4", ShowNat(8080), "user1", "pass1"];
    ShowExamplePort();
    RenderParse("1.2.3.4", 8080, "user1", "pass1", [], "http");
    assert fields + [] == fields;
    ShowExamplePort();
    JoinExample();
  }

  lemma ShowExamplePort()
    ensures ShowNat(8080) == "8080"
  {
    assert ShowNat(8) == "8";
    assert ShowNat(80) == "80";
    assert ShowNat(808) == "808";
  }

  lemma JoinExample()
    ensures Join(["1.2.3.4", "8080", "user1", "pass1"], Colon) == "1.2.3.4:8080:user1:pass1"
  {
    var fields: seq<string> := ["1.2.3.4", "8080", "user1", "pass1"];
    assert fields[1..][1..][1..] == ["pass1"];
    assert fields[1..][1..] == ["user1", "pass1"];
    assert fields[1..] == ["8080", "user1", "pass1"];
  }
}
