/**
 * Response normalisation: the two request paths that bypass the client
 * library (`__delete_patch` and `__rpc_patch` of SupabaseDal) and the
 * library's own `execute()` as the data-access layer relies on it.
 * Every path yields the dict `{"data": ..., "status_code": ...}`,
 * modelled as `Result`.
 */
module Normalizer {
  import opened Wrappers
  import opened Json

  /**
   * A raw HTTP response: its status, its body, and what `response.json()`
   * yields for that body (None when parsing raises).
   */
  datatype Response = Response(status: int, content: string, json: Option<Value>)

  /** The normalised result dict every operation inspects. */
  datatype Result = Result(data: Value, statusCode: int)

  /** What a client-library request builder carries: its base URL and its encoded query string. */
  datatype Builder = Builder(baseUrl: string, params: string)

  /**
   * The client library's `execute()`: it converts the body to JSON and
   * raises when that fails (the very defect `__delete_patch` works around),
   * so a body that does not parse yields no result at all.
   */
  function Execute(r: Response): (res: Option<Result>)
    ensures res.Some? <==> r.json.Some?
    ensures res.Some? ==> res.value.statusCode == r.status && res.value.data == r.json.value
  {
    match r.json
    case Some(v) => Some(Result(v, r.status))
    case None => None
  }

  // ---------------------------------------------------------------------
  // Stripping the percent-encoded quote marks from a delete query
  // ---------------------------------------------------------------------

  /** True when `s` holds the three characters "%22" at position `i`. */
  predicate QuoteAt(s: string, i: nat)
    requires i + 3 <= |s|
  {
    s[i] == '%' && s[i + 1] == '2' && s[i + 2] == '2'
  }

  /**
   * Python's `str.replace("%22", "")`: one left-to-right scan that drops
   * every non-overlapping occurrence of "%22" and keeps everything else.
   */
  function StripQuotes(s: string): (r: string)
    ensures |r| <= |s|
    ensures |s| >= 3 && QuoteAt(s, 0) ==> |r| <= |s| - 3
  {
    if |s| < 3 then s
    else if QuoteAt(s, 0) then StripQuotes(s[3..])
    else [s[0]] + StripQuotes(s[1..])
  }

  predicate IsHex(c: char) {
    ('0' <= c <= '9') || ('a' <= c <= 'f') || ('A' <= c <= 'F')
  }

  /** A percent-encoded string: every '%' starts a "%XX" escape with two hex digits. */
  predicate Encoded(s: string)
    decreases |s|
  {
    if s == [] then true
    else if s[0] == '%' then |s| >= 3 && IsHex(s[1]) && IsHex(s[2]) && Encoded(s[3..])
    else Encoded(s[1..])
  }

  /** A percent-encoded string none of whose escapes is "%22". */
  predicate EncodedQuoteFree(s: string)
    decreases |s|
  {
    if s == [] then true
    else if s[0] == '%' then
      |s| >= 3 && IsHex(s[1]) && IsHex(s[2]) && !(s[1] == '2' && s[2] == '2') && EncodedQuoteFree(s[3..])
    else EncodedQuoteFree(s[1..])
  }

  /** No "%22" occurs anywhere in `s`. */
  predicate QuoteFree(s: string) {
    forall i: nat :: i + 3 <= |s| ==> !QuoteAt(s, i)
  }

  /** A leading character other than '%' is kept as it is. */
  lemma StripKeepsHead(s: string)
    requires s != [] && s[0] != '%'
    ensures StripQuotes(s) == [s[0]] + StripQuotes(s[1..])
  {
    if |s| < 3 {
      assert StripQuotes(s[1..]) == s[1..];
      assert s == [s[0]] + s[1..];
    }
  }

  /** Stripping a percent-encoded query leaves a percent-encoded query without any "%22" escape. */
  lemma {:induction false} StripQuotesEncoded(s: string)
    requires Encoded(s)
    ensures EncodedQuoteFree(StripQuotes(s))
    decreases |s|
  {
    if s == [] {
    } else if s[0] == '%' {
      if QuoteAt(s, 0) {
        StripQuotesEncoded(s[3..]);
      } else {
        assert s[1] != '%' && s[2] != '%';
        StripKeepsHead(s[1..]);
        StripKeepsHead(s[2..]);
        assert s[1..][1..] == s[2..] && s[2..][1..] == s[3..];
        var rest := StripQuotes(s[3..]);
        assert |s| >= 3;
        assert !(|s[1..]| >= 3 && QuoteAt(s[1..], 0));
        assert StripQuotes(s) == [s[0]] + StripQuotes(s[1..]);
        assert StripQuotes(s) == [s[0], s[1], s[2]] + rest;
        StripQuotesEncoded(s[3..]);
        assert ([s[0], s[1], s[2]] + rest)[3..] == rest;
      }
    } else {
      StripKeepsHead(s);
      StripQuotesEncoded(s[1..]);
      assert ([s[0]] + StripQuotes(s[1..]))[1..] == StripQuotes(s[1..]);
    }
  }

  /** An encoded string without "%22" escapes contains the text "%22" nowhere. */
  lemma {:induction false} EncodedQuoteFreeIsQuoteFree(s: string)
    requires EncodedQuoteFree(s)
    ensures QuoteFree(s)
    decreases |s|
  {
    if s == [] {
    } else if s[0] == '%' {
      EncodedQuoteFreeIsQuoteFree(s[3..]);
      forall i: nat | i + 3 <= |s| ensures !QuoteAt(s, i) {
        if i >= 3 {
          assert QuoteAt(s, i) == QuoteAt(s[3..], i - 3);
        } else if i > 0 {
          assert s[i] != '%';
        }
      }
    } else {
      EncodedQuoteFreeIsQuoteFree(s[1..]);
      forall i: nat | i + 3 <= |s| ensures !QuoteAt(s, i) {
        if i >= 1 {
          assert QuoteAt(s, i) == QuoteAt(s[1..], i - 1);
        }
      }
    }
  }

  /** Text that already has no "%22" is left unchanged, so stripping twice is stripping once. */
  lemma {:induction false} StripQuotesFixesQuoteFree(s: string)
    requires QuoteFree(s)
    ensures StripQuotes(s) == s
    decreases |s|
  {
    if |s| >= 3 {
      assert !QuoteAt(s, 0);
      assert QuoteFree(s[1..]) by {
        forall i: nat | i + 3 <= |s[1..]| ensures !QuoteAt(s[1..], i) {
          assert QuoteAt(s[1..], i) == QuoteAt(s, i + 1);
        }
      }
      StripQuotesFixesQuoteFree(s[1..]);
      assert s == [s[0]] + s[1..];
    }
  }

  /** An escape other than "%22" at the head is kept as it is. */
  lemma StripKeepsEscape(s: string)
    requires |s| >= 3 && s[0] == '%' && s[1] != '%' && s[2] != '%' && !(s[1] == '2' && s[2] == '2')
    ensures StripQuotes(s) == s[..3] + StripQuotes(s[3..])
  {
    var t := s[1..];
    assert !QuoteAt(s, 0);
    assert StripQuotes(s) == [s[0]] + StripQuotes(t);
    StripKeepsHead(t);
    assert t[1..] == s[2..];
    StripKeepsHead(s[2..]);
    assert s[2..][1..] == s[3..];
    assert s[..3] == [s[0]] + [s[1]] + [s[2]];
  }

  /** One escape of an encoded, "%22"-free prefix: it is kept, and the rest of the prefix is again encoded and "%22"-free. */
  lemma PrefixEscapeStep(a: string, b: string)
    requires EncodedQuoteFree(a) && a != [] && a[0] == '%'
    ensures |a| >= 3 && EncodedQuoteFree(a[3..])
    ensures StripQuotes(a + b) == a[..3] + StripQuotes(a[3..] + b)
  {
    var s := a + b;
    assert |a| >= 3 && IsHex(a[1]) && IsHex(a[2]);
    assert s[..3] == a[..3] && s[3..] == a[3..] + b;
    StripKeepsEscape(s);
  }

  /** One other character of an encoded, "%22"-free prefix: it is kept, and the rest of the prefix is again encoded and "%22"-free. */
  lemma PrefixCharStep(a: string, b: string)
    requires EncodedQuoteFree(a) && a != [] && a[0] != '%'
    ensures EncodedQuoteFree(a[1..])
    ensures StripQuotes(a + b) == [a[0]] + StripQuotes(a[1..] + b)
  {
    var s := a + b;
    assert s[1..] == a[1..] + b;
    StripKeepsHead(s);
  }

  /** An encoded prefix without "%22" escapes passes through the replacement untouched. */
  lemma {:induction false} StripQuotesKeepsPrefix(a: string, b: string)
    requires EncodedQuoteFree(a)
    ensures StripQuotes(a + b) == a + StripQuotes(b)
    decreases |a|, 1
  {
    if a == [] {
      assert a + b == b;
    } else if a[0] == '%' {
      KeepsPrefixFromEscape(a, b);
    } else {
      KeepsPrefixFromChar(a, b);
    }
  }

  lemma {:induction false} KeepsPrefixFromEscape(a: string, b: string)
    requires EncodedQuoteFree(a) && a != [] && a[0] == '%'
    ensures StripQuotes(a + b) == a + StripQuotes(b)
    decreases |a|, 0
  {
    PrefixEscapeStep(a, b);
    StripQuotesKeepsPrefix(a[3..], b);
    var x := StripQuotes(b);
    assert a == a[..3] + a[3..];
    assert a[..3] + (a[3..] + x) == (a[..3] + a[3..]) + x;
  }

  lemma {:induction false} KeepsPrefixFromChar(a: string, b: string)
    requires EncodedQuoteFree(a) && a != [] && a[0] != '%'
    ensures StripQuotes(a + b) == a + StripQuotes(b)
    decreases |a|, 0
  {
    PrefixCharStep(a, b);
    StripQuotesKeepsPrefix(a[1..], b);
    assert [a[0]] + (a[1..] + StripQuotes(b)) == a + StripQuotes(b);
  }

  /**
   * Only the escapes go: after an encoded prefix free of "%22" escapes, a
   * "%22" is dropped and everything around it is kept.
   */
  lemma StripQuotesDropsEscape(a: string, b: string)
    requires EncodedQuoteFree(a)
    ensures StripQuotes(a + "%22" + b) == a + StripQuotes(b)
  {
    var t := "%22" + b;
    assert a + "%22" + b == a + t;
    StripQuotesKeepsPrefix(a, t);
    assert QuoteAt(t, 0) && t[3..] == b;
  }

  /**
   * On a well-formed encoded query the patched delete sends no "%22" at
   * all, and applying the patch again would change nothing.
   */
  lemma StripQuotesSound(s: string)
    requires Encoded(s)
    ensures QuoteFree(StripQuotes(s))
    ensures StripQuotes(StripQuotes(s)) == StripQuotes(s)
  {
    StripQuotesEncoded(s);
    EncodedQuoteFreeIsQuoteFree(StripQuotes(s));
    StripQuotesFixesQuoteFree(StripQuotes(s));
  }

  /**
   * On text that is not percent-encoded a single pass can create a new
   * "%22": removing the middle "%22" of "%2%222" joins "%2" and "2".
   */
  lemma StripQuotesCanJoin()
    ensures !QuoteFree(StripQuotes("%2%222"))
  {
    var s := "%2%222";
    assert !QuoteAt(s, 0);
    assert StripQuotes(s) == [s[0]] + StripQuotes(s[1..]);
    assert !QuoteAt(s[1..], 0);
    assert StripQuotes(s[1..]) == [s[1]] + StripQuotes(s[2..]);
    assert QuoteAt(s[2..], 0);
    assert StripQuotes(s[2..]) == StripQuotes(s[5..]) == "2";
    assert StripQuotes(s) == "%22";
    assert QuoteAt(StripQuotes(s), 0);
  }

  // ---------------------------------------------------------------------
  // The two patched request paths
  // ---------------------------------------------------------------------

  /** Python's `str.rstrip("/")`: drops every trailing slash and nothing else. */
  function RStripSlash(s: string): (r: string)
    ensures r <= s
    ensures r == [] || r[|r| - 1] != '/'
    ensures forall i :: |r| <= i < |s| ==> s[i] == '/'
  {
    if s != [] && s[|s| - 1] == '/' then RStripSlash(s[..|s| - 1]) else s
  }

  /**
   * The URL `__delete_patch` sends its DELETE to: the builder's base URL
   * without trailing slashes, '?', and the builder's query with every
   * "%22" removed.
   */
  function DeleteUrl(b: Builder): (url: string)
    ensures |url| > |RStripSlash(b.baseUrl)| && url[|RStripSlash(b.baseUrl)|] == '?'
    ensures url == RStripSlash(b.baseUrl) + "?" + StripQuotes(b.params)
    ensures Encoded(b.params) ==> QuoteFree(url[|RStripSlash(b.baseUrl)| + 1..])
  {
    var base := RStripSlash(b.baseUrl);
    var url := base + "?" + StripQuotes(b.params);
    assert url[|base| + 1..] == StripQuotes(b.params);
    assert Encoded(b.params) ==> QuoteFree(StripQuotes(b.params)) by {
      if Encoded(b.params) {
        StripQuotesSound(b.params);
      }
    }
    url
  }

  /**
   * The result `__delete_patch` returns for a response: the status is
   * always the response's, the data is the parsed body, or "" when the
   * body is empty (where `response.json()` raises) or does not parse.  It
   * never fails.
   */
  function DeleteResult(r: Response): (res: Result)
    ensures res.statusCode == r.status
    ensures r.content != "" && r.json.Some? ==> res.data == r.json.value
    ensures r.content == "" || r.json.None? ==> res.data == Str("")
  {
    if r.content != [] && r.json.Some? then Result(r.json.value, r.status)
    else Result(Str(""), r.status)
  }

  /**
   * The result `__rpc_patch` returns for a response: the status is always
   * the response's; an empty body is not parsed at all and leaves `{}`;
   * a body that does not parse also leaves `{}`.  It never fails.
   */
  function RpcResult(r: Response): (res: Result)
    ensures res.statusCode == r.status
    ensures r.content == "" ==> res.data == Obj(map[])
    ensures r.content != "" && r.json.Some? ==> res.data == r.json.value
    ensures r.json.None? ==> res.data == Obj(map[])
  {
    if r.content != [] && r.json.Some? then Result(r.json.value, r.status)
    else Result(Obj(map[]), r.status)
  }
}
