/**
 * The C++ OpenAI client linked into the speech server (tts/src/openai.hpp):
 * environment lookups, the case-insensitive string order, the two libcurl
 * callbacks that collect a response's body and header fields, the method
 * dispatch of `make_request` and the 2xx gate of `post`, `get` and
 * `delete_req`.
 *
 * libcurl itself is not modelled: what `curl_easy_init` and
 * `curl_easy_perform` did is a `Transport` parameter, and parsing the body
 * as JSON is left to the caller (`Parsed` carries the body text).
 */
module OpenAiClient {
  import opened Common

  /** The process environment; a variable that is not set is absent. */
  type Environment = map<string, string>

  /** `get_env` on POSIX: the variable's value, or "" when it is not set. */
  function GetEnv(env: Environment, name: string): (r: string)
    ensures name !in env ==> r == ""
    ensures name in env ==> r == env[name]
  {
    if name in env then env[name] else ""
  }

  /** `get_env_else`: the variable's value unless it is unset or empty, then the default. */
  function GetEnvElse(env: Environment, name: string, default: string): (r: string)
    ensures name !in env || env[name] == "" ==> r == default
    ensures name in env && env[name] != "" ==> r == env[name]
    ensures default != "" ==> r != ""
  {
    var value := GetEnv(env, name);
    if value == "" then default else value
  }

  /**
   * `is_env_defined`: the variable is set to a non-empty value, which is
   * exactly when `get_env_else` ignores its default.
   */
  function IsEnvDefined(env: Environment, name: string): (r: bool)
    ensures r <==> name in env && env[name] != ""
    ensures r ==> forall d :: GetEnvElse(env, name, d) == env[name]
    ensures !r ==> forall d :: GetEnvElse(env, name, d) == d
  {
    GetEnv(env, name) != ""
  }

  // ---------------------------------------------------------------------
  // CaseInsensitiveCompare

  /** `std::tolower` in the "C" locale: only the 26 ASCII capitals change. */
  function Lower(c: char): (r: char)
    ensures 'A' <= c <= 'Z' ==> 'a' <= r <= 'z' && r as int == c as int + 32
    ensures !('A' <= c <= 'Z') ==> r == c
    ensures !('A' <= r <= 'Z')
  {
    if 'A' <= c <= 'Z' then (c as int + 32) as char else c
  }

  function LowerAll(s: string): (r: string)
    ensures |r| == |s| && forall i :: 0 <= i < |s| ==> r[i] == Lower(s[i])
  {
    seq(|s|, i requires 0 <= i < |s| => Lower(s[i]))
  }

  /**
   * `CaseInsensitiveCompare`: `std::lexicographical_compare` with the
   * element order `tolower(c1) < tolower(c2)`. The right-hand string running
   * out first, or a greater element, answers false; the left-hand string
   * running out first, or a smaller element, answers true.
   */
  function CaseInsensitiveLess(a: string, b: string): (r: bool)
    ensures b == [] ==> !r
    ensures a == [] ==> (r <==> b != [])
  {
    if b == [] then false
    else if a == [] then true
    else if Lower(a[0]) < Lower(b[0]) then true
    else if Lower(b[0]) < Lower(a[0]) then false
    else CaseInsensitiveLess(a[1..], b[1..])
  }

  /**
   * `k` witnesses that `x` comes before `y` in plain lexicographic order:
   * they agree on their first `k` characters, after which `x` ends while `y`
   * goes on, or `x` has the smaller character.
   */
  predicate LexWitness(x: string, y: string, k: int)
  {
    0 <= k <= |x| && k <= |y| && x[..k] == y[..k] &&
    (if k == |x| then k < |y| else k < |y| && x[k] < y[k])
  }

  /** Plain lexicographic order, as a reference. */
  ghost predicate LexBefore(x: string, y: string)
  {
    exists k :: LexWitness(x, y, k)
  }

  /** Two strings with the same first character are ordered as their tails are. */
  lemma {:induction false} LexBeforeTail(x: string, y: string)
    requires x != [] && y != [] && x[0] == y[0]
    ensures LexBefore(x, y) <==> LexBefore(x[1..], y[1..])
  {
    if LexBefore(x, y) {
      var k :| LexWitness(x, y, k);
      assert k != 0;
      assert x[1..][..k - 1] == x[1..k] && y[1..][..k - 1] == y[1..k];
      assert LexWitness(x[1..], y[1..], k - 1);
    }
    if LexBefore(x[1..], y[1..]) {
      var j :| LexWitness(x[1..], y[1..], j);
      assert x[..j + 1] == [x[0]] + x[1..][..j];
      assert y[..j + 1] == [y[0]] + y[1..][..j];
      assert LexWitness(x, y, j + 1);
    }
  }

  /** The comparator is exactly lexicographic order on the lower-cased strings. */
  lemma {:induction false} CaseInsensitiveLessIsLexOrder(a: string, b: string)
    ensures CaseInsensitiveLess(a, b) <==> LexBefore(LowerAll(a), LowerAll(b))
    decreases |a|
  {
    var x, y := LowerAll(a), LowerAll(b);
    if b == [] {
      forall k ensures !LexWitness(x, y, k) {
      }
    } else if a == [] || Lower(a[0]) < Lower(b[0]) {
      assert LexWitness(x, y, 0);
    } else if Lower(b[0]) < Lower(a[0]) {
      forall k ensures !LexWitness(x, y, k) {
        if 0 < k <= |x| && k <= |y| {
          assert x[..k][0] == x[0] && y[..k][0] == y[0];
        }
      }
    } else {
      CaseInsensitiveLessIsLexOrder(a[1..], b[1..]);
      assert LowerAll(a[1..]) == x[1..];
      assert LowerAll(b[1..]) == y[1..];
      LexBeforeTail(x, y);
    }
  }

  /** Strings that differ only in the case of ASCII letters are mutually not less: equivalent keys. */
  lemma {:induction false} CaseOnlyDifferenceIsEquivalence(a: string, b: string)
    requires LowerAll(a) == LowerAll(b)
    ensures !CaseInsensitiveLess(a, b) && !CaseInsensitiveLess(b, a)
    decreases |a|
  {
    if a != [] {
      assert Lower(a[0]) == LowerAll(a)[0] == LowerAll(b)[0] == Lower(b[0]);
      assert LowerAll(a[1..]) == LowerAll(a)[1..] == LowerAll(b)[1..] == LowerAll(b[1..]);
      CaseOnlyDifferenceIsEquivalence(a[1..], b[1..]);
    }
  }

  /** The comparator is asymmetric. */
  lemma {:induction false} CaseInsensitiveLessAsymmetric(a: string, b: string)
    requires CaseInsensitiveLess(a, b)
    ensures !CaseInsensitiveLess(b, a)
    decreases |a|
  {
    if a != [] && Lower(a[0]) == Lower(b[0]) {
      CaseInsensitiveLessAsymmetric(a[1..], b[1..]);
    }
  }

  /** The comparator is transitive. */
  lemma {:induction false} CaseInsensitiveLessTransitive(a: string, b: string, c: string)
    requires CaseInsensitiveLess(a, b) && CaseInsensitiveLess(b, c)
    ensures CaseInsensitiveLess(a, c)
    decreases |a|
  {
    if a != [] && Lower(a[0]) == Lower(b[0]) == Lower(c[0]) {
      CaseInsensitiveLessTransitive(a[1..], b[1..], c[1..]);
    }
  }

  /** Strings that differ other than in case are ordered one way or the other. */
  lemma {:induction false} CaseInsensitiveLessTotal(a: string, b: string)
    requires LowerAll(a) != LowerAll(b)
    ensures CaseInsensitiveLess(a, b) || CaseInsensitiveLess(b, a)
    decreases |a|
  {
    if a != [] && b != [] && Lower(a[0]) == Lower(b[0]) {
      assert LowerAll(a) == [Lower(a[0])] + LowerAll(a[1..]);
      assert LowerAll(b) == [Lower(b[0])] + LowerAll(b[1..]);
      CaseInsensitiveLessTotal(a[1..], b[1..]);
    }
  }

  // ---------------------------------------------------------------------
  // Header field lines

  /** The characters `find_first_not_of(" \t")` passes over. */
  predicate LeadingBlank(c: char)
  {
    c == ' ' || c == '\t'
  }

  /** The characters `find_last_not_of(" \t\r\n")` passes over. */
  predicate TrailingBlank(c: char)
  {
    c == ' ' || c == '\t' || c == '\r' || c == '\n'
  }

  /** `find_first_not_of(" \t")`; `None` is `npos`. */
  function FindFirstNotOf(s: string): (r: Option<nat>)
    ensures r.Some? ==> r.value < |s| && !LeadingBlank(s[r.value])
    ensures r.Some? ==> forall j :: 0 <= j < r.value ==> LeadingBlank(s[j])
    ensures r.None? ==> forall j :: 0 <= j < |s| ==> LeadingBlank(s[j])
  {
    if s == [] then None
    else if !LeadingBlank(s[0]) then Some(0)
    else match FindFirstNotOf(s[1..]) {
      case None => None
      case Some(i) => Some(i + 1)
    }
  }

  /** `find_last_not_of(" \t\r\n")`; `None` is `npos`. */
  function FindLastNotOf(s: string): (r: Option<nat>)
    ensures r.Some? ==> r.value < |s| && !TrailingBlank(s[r.value])
    ensures r.Some? ==> forall j :: r.value < j < |s| ==> TrailingBlank(s[j])
    ensures r.None? ==> forall j :: 0 <= j < |s| ==> TrailingBlank(s[j])
  {
    if s == [] then None
    else if !TrailingBlank(s[|s| - 1]) then Some(|s| - 1)
    else FindLastNotOf(s[..|s| - 1])
  }

  /** `find(':')`; `None` is `npos`. */
  function FindColon(s: string): (r: Option<nat>)
    ensures r.None? <==> ':' !in s
    ensures r.Some? ==> r.value < |s| && s[r.value] == ':' && ':' !in s[..r.value]
  {
    if s == [] then None
    else if s[0] == ':' then Some(0)
    else match FindColon(s[1..]) {
      case None => None
      case Some(i) =>
        assert s[..i + 1] == [s[0]] + s[1..][..i];
        Some(i + 1)
    }
  }

  /**
   * `s.erase(0, s.find_first_not_of(" \t"))`: erasing up to `npos` erases
   * everything. The result is the suffix that starts at the first
   * character other than space and tab.
   */
  function TrimLeading(s: string): (r: string)
    ensures |r| <= |s| && r == s[|s| - |r|..]
    ensures r == [] || !LeadingBlank(r[0])
    ensures forall j :: 0 <= j < |s| - |r| ==> LeadingBlank(s[j])
  {
    match FindFirstNotOf(s) {
      case None => ""
      case Some(i) => s[i..]
    }
  }

  /**
   * `s.erase(s.find_last_not_of(" \t\r\n") + 1)`: `npos + 1` wraps to 0, so
   * a part made only of those characters is erased entirely. The result is
   * the prefix that ends at the last character other than space, tab, CR
   * and LF.
   */
  function TrimTrailing(s: string): (r: string)
    ensures |r| <= |s| && r == s[..|r|]
    ensures r == [] || !TrailingBlank(r[|r| - 1])
    ensures forall j :: |r| <= j < |s| ==> TrailingBlank(s[j])
  {
    var end := match FindLastNotOf(s) {
      case None => 0
      case Some(i) => i + 1
    };
    s[..end]
  }

  /** Both trims, leading first, as the callback applies them to the key and to the value. */
  function Trim(s: string): string
  {
    TrimTrailing(TrimLeading(s))
  }

  /** A part that neither trim would shorten. */
  predicate Trimmed(s: string)
  {
    s == [] || (!LeadingBlank(s[0]) && !TrailingBlank(s[|s| - 1]))
  }

  /** Whatever the part, the trims leave nothing either of them would remove. */
  lemma TrimIsTrimmed(s: string)
    ensures Trimmed(Trim(s))
  {
    var t := TrimLeading(s);
    var r := TrimTrailing(t);
    if r != [] {
      assert r[0] == t[0];
    }
  }

  /** The first ':' of a line is the one `find(':')` reports. */
  lemma {:induction false} FindColonFirst(s: string, i: nat)
    requires i < |s| && s[i] == ':' && ':' !in s[..i]
    ensures FindColon(s) == Some(i)
  {
    if i > 0 {
      assert s[0] == s[..i][0];
      assert s[1..][..i - 1] == s[1..i];
      assert s[1..i] <= s[..i][1..];
      FindColonFirst(s[1..], i - 1);
    }
  }

  /**
   * The field a header line contributes: none without a ':'; otherwise the
   * trimmed text before the first ':' as the name and the trimmed text after
   * it as the value.
   */
  function ParseHeaderLine(line: string): (r: Option<(string, string)>)
    ensures r.None? <==> ':' !in line
    ensures r.Some? ==> ':' !in r.value.0 && Trimmed(r.value.0) && Trimmed(r.value.1)
  {
    match FindColon(line) {
      case None => None
      case Some(pos) =>
        var key := line[..pos];
        TrimIsTrimmed(key);
        TrimIsTrimmed(line[pos + 1..]);
        TrimKeepsColonFree(key);
        Some((Trim(key), Trim(line[pos + 1..])))
    }
  }

  /** Trimming only removes characters, so a part without ':' stays without one. */
  lemma TrimKeepsColonFree(s: string)
    requires ':' !in s
    ensures ':' !in Trim(s)
  {
    var t := TrimLeading(s);
    var r := TrimTrailing(t);
    assert forall i :: 0 <= i < |r| ==> r[i] == t[i] == s[|s| - |t| + i];
  }

  /** The header map after one parsed header line: a new field is inserted, a known one overwritten. */
  function HeaderUpdate(headers: map<string, string>, field: Option<(string, string)>): (r: map<string, string>)
    ensures field.None? ==> r == headers
    ensures field.Some? ==>
              && r.Keys == headers.Keys + {field.value.0} && r[field.value.0] == field.value.1
              && forall k :: k in headers && k != field.value.0 ==> r[k] == headers[k]
  {
    if field.None? then headers else headers[field.value.0 := field.value.1]
  }

  /** Spaces and tabs in front of a part that starts otherwise are all dropped, and nothing more. */
  lemma {:induction false} TrimLeadingPadding(pad: string, s: string)
    requires forall j :: 0 <= j < |pad| ==> LeadingBlank(pad[j])
    requires s != [] && !LeadingBlank(s[0])
    ensures TrimLeading(pad + s) == s
  {
    var x := pad + s;
    var r := TrimLeading(x);
    assert forall j :: 0 <= j < |pad| ==> x[j] == pad[j];
    assert x[|pad|] == s[0];
    assert |r| >= |s|;
    assert r != [] && r[0] == x[|x| - |r|];
    assert r == x[|pad|..] == s;
  }

  /** Spaces, tabs, CRs and LFs after a part that ends otherwise are all dropped, and nothing more. */
  lemma {:induction false} TrimTrailingPadding(s: string, pad: string)
    requires forall j :: 0 <= j < |pad| ==> TrailingBlank(pad[j])
    requires s == [] || !TrailingBlank(s[|s| - 1])
    ensures TrimTrailing(s + pad) == s
  {
    var x := s + pad;
    var r := TrimTrailing(x);
    assert forall j :: 0 <= j < |pad| ==> x[|s| + j] == pad[j];
    assert forall j :: 0 <= j < |r| ==> r[j] == x[j];
    if s != [] {
      assert x[|s| - 1] == s[|s| - 1];
    }
    assert |r| == |s|;
    assert r == x[..|s|] == s;
  }

  /** A part made only of padding trims to nothing. */
  lemma {:induction false} TrimAllPadding(before: string, after: string)
    requires forall j :: 0 <= j < |before| ==> LeadingBlank(before[j])
    requires forall j :: 0 <= j < |after| ==> TrailingBlank(after[j])
    ensures Trim(before + after) == []
  {
    var x := before + after;
    var t := TrimLeading(x);
    forall j | 0 <= j < |t|
      ensures TrailingBlank(t[j])
    {
      var i := |x| - |t| + j;
      assert t[j] == x[i];
      if i < |before| {
        assert x[i] == before[i];
      } else {
        assert x[i] == after[i - |before|];
      }
    }
    TrimTrailingPadding([], t);
    assert [] + t == t;
  }

  /**
   * Trimming recovers a trimmed part from any padding the callback strips:
   * spaces and tabs before it, spaces, tabs, CRs and LFs after it.
   */
  lemma {:induction false} TrimRemovesPadding(before: string, s: string, after: string)
    requires forall j :: 0 <= j < |before| ==> LeadingBlank(before[j])
    requires forall j :: 0 <= j < |after| ==> TrailingBlank(after[j])
    requires Trimmed(s)
    ensures Trim(before + s + after) == s
  {
    if s != [] {
      assert before + s + after == before + (s + after);
      assert (s + after)[0] == s[0];
      TrimLeadingPadding(before, s + after);
      TrimTrailingPadding(s, after);
    } else {
      assert before + s + after == before + after;
      TrimAllPadding(before, after);
    }
  }

  /**
   * Round trip: a line `name: value` ended by CR LF, as a server sends a
   * field, gives back the name and the value whatever padding surrounds
   * them, as long as the name holds no ':' and both are trimmed.
   */
  lemma {:induction false} HeaderLineRoundTrip(name: string, value: string, pad1: string, pad2: string, pad3: string)
    requires ':' !in name && Trimmed(name) && Trimmed(value)
    requires forall j :: 0 <= j < |pad1| ==> LeadingBlank(pad1[j])
    requires forall j :: 0 <= j < |pad2| ==> TrailingBlank(pad2[j])
    requires forall j :: 0 <= j < |pad3| ==> LeadingBlank(pad3[j])
    ensures ParseHeaderLine(pad1 + name + pad2 + ":" + pad3 + value + "\r\n") == Some((name, value))
  {
    var key := pad1 + name + pad2;
    var rest := pad3 + value + "\r\n";
    var line := key + ":" + rest;
    assert line == pad1 + name + pad2 + ":" + pad3 + value + "\r\n";
    assert ':' !in key by {
      forall j | 0 <= j < |key|
        ensures key[j] != ':'
      {
        if j < |pad1| {
          assert key[j] == pad1[j];
        } else if j < |pad1| + |name| {
          assert key[j] == name[j - |pad1|];
        } else {
          assert key[j] == pad2[j - |pad1| - |name|];
        }
      }
    }
    assert line[..|key|] == key;
    assert line[|key|] == ':';
    FindColonFirst(line, |key|);
    assert line[|key| + 1..] == rest;
    TrimRemovesPadding(pad1, name, pad2);
    assert forall j :: 0 <= j < |"\r\n"| ==> TrailingBlank("\r\n"[j]);
    TrimRemovesPadding(pad3, value, "\r\n");
  }

  /**
   * The two libcurl callbacks of one transfer and what they fill in:
   * `response_string` and `response_headers` in `make_request`.
   */
  class Transfer {
    var body: string
    var headers: map<string, string>

    constructor ()
      ensures body == "" && headers == map[]
    {
      body, headers := "", map[];
    }

    /** `write_callback`: the whole delivered block is appended to the body and its size reported. */
    method WriteCallback(data: seq<char>, size: nat, nmemb: nat) returns (written: nat)
      requires size * nmemb <= |data|
      modifies this
      ensures written == size * nmemb
      ensures body == old(body) + data[..written] && |body| == |old(body)| + written
      ensures headers == old(headers)
    {
      written := size * nmemb;
      body := body + data[..written];
    }

    /**
     * `header_callback`: the delivered line is parsed and, when it holds a
     * ':', its field is stored; the whole size is reported either way.
     */
    method HeaderCallback(buffer: seq<char>, size: nat, nitems: nat) returns (consumed: nat)
      requires size * nitems <= |buffer|
      modifies this
      ensures consumed == size * nitems
      ensures headers == HeaderUpdate(old(headers), ParseHeaderLine(buffer[..consumed]))
      ensures body == old(body)
    {
      consumed := size * nitems;
      var header := buffer[..consumed];
      var pos := FindColon(header);
      if pos.Some? {
        var key := header[..pos.value];
        var value := header[pos.value + 1..];
        key := TrimLeading(key);
        key := TrimTrailing(key);
        value := TrimLeading(value);
        value := TrimTrailing(value);
        headers := headers[key := value];
      }
    }
  }

  // ---------------------------------------------------------------------
  // Requests

  /** The methods `make_request` knows how to configure. */
  predicate SupportedMethod(m: string)
  {
    m == "POST" || m == "GET" || m == "PUT" || m == "DELETE"
  }

  /** What libcurl did: no handle, a transfer that failed, or one that completed with a status. */
  datatype Transport =
    | InitFailed
    | PerformFailed(status: int, reason: string)
    | Performed(status: int, body: string)

  /** A `Response` from `make_request`, or the exception it threw. */
  datatype RawResponse = Threw(message: string) | Response(statusCode: int, text: string)

  /**
   * The branches of `make_request`: a missing curl handle first, then an
   * unknown method, then a failed transfer, each throwing or answering
   * with a status of its own, and otherwise the status and body received.
   */
  function MakeRequest(m: string, transport: Transport, throwException: bool): (r: RawResponse)
    ensures r.Threw? ==> throwException
    ensures transport.InitFailed? ==>
              r == (if throwException then Threw("Failed to initialize curl") else Response(-1, "Failed to initialize curl"))
    ensures transport.InitFailed? || !SupportedMethod(m) ==>
              !throwException ==> r.Response? && r.statusCode == -1
    ensures !transport.InitFailed? && !SupportedMethod(m) && throwException ==>
              r == Threw("Unsupported HTTP method: " + m)
    ensures !transport.InitFailed? && !SupportedMethod(m) && !throwException ==>
              r == Response(-1, "Unsupported HTTP method: " + m) && !Success(r.statusCode)
    ensures r.Response? && r.statusCode != -1 ==> !transport.InitFailed? && SupportedMethod(m)
    ensures SupportedMethod(m) && transport.Performed? ==> r == Response(transport.status, transport.body)
    ensures SupportedMethod(m) && transport.PerformFailed? ==>
              r == (if throwException then Threw(CompletedText(transport))
                    else Response(transport.status, CompletedText(transport)))
  {
    if transport.InitFailed? then
      if throwException then Threw("Failed to initialize curl") else Response(-1, "Failed to initialize curl")
    else if !SupportedMethod(m) then
      if throwException then Threw("Unsupported HTTP method: " + m) else Response(-1, "Unsupported HTTP method: " + m)
    else match transport {
      case PerformFailed(status, reason) =>
        var message := "curl_easy_perform() failed: " + reason;
        if throwException then Threw(message) else Response(status, message)
      case Performed(status, body) => Response(status, body)
    }
  }

  /** The status codes `post`, `get` and `delete_req` accept. */
  predicate Success(status: int)
  {
    200 <= status < 300
  }

  /**
   * The text of a response that got a status: the body, or the failure
   * message that replaces it when the transfer broke off.
   */
  function CompletedText(transport: Transport): string
    requires !transport.InitFailed?
  {
    if transport.Performed? then transport.body else "curl_easy_perform() failed: " + transport.reason
  }

  /**
   * What the status gate of `post`, `get` and `delete_req` gives: a body
   * handed on to `json_parse`, whose parse (and its `parse_error` on a body
   * that is not JSON) is not modelled; `Json()`; or an exception.
   */
  datatype Reply =
    | Parsed(body: string)      // the body handed to the JSON parser
    | NullJson                  // `Json()`, a null JSON value, after a warning
    | Failed(message: string)   // a `std::runtime_error`

  function DigitChar(d: nat): (c: char)
    requires d < 10
    ensures '0' <= c <= '9' && c as int - '0' as int == d
  {
    ('0' as int + d) as char
  }

  /** `std::to_string` of a non-negative number: its decimal digits, most significant first. */
  function Digits(n: nat): (r: string)
    ensures |r| >= 1 && forall i :: 0 <= i < |r| ==> '0' <= r[i] <= '9'
  {
    if n < 10 then [DigitChar(n)] else Digits(n / 10) + [DigitChar(n % 10)]
  }

  /** The number a string of decimal digits denotes. */
  function DecimalValue(s: string): nat
    requires forall i :: 0 <= i < |s| ==> '0' <= s[i] <= '9'
  {
    if s == [] then 0 else 10 * DecimalValue(s[..|s| - 1]) + (s[|s| - 1] as int - '0' as int)
  }

  /** The digits read back as the number they were made from. */
  lemma {:induction false} DigitsRoundTrip(n: nat)
    ensures DecimalValue(Digits(n)) == n
  {
    if n >= 10 {
      DigitsRoundTrip(n / 10);
      var s := Digits(n);
      assert s[..|s| - 1] == Digits(n / 10);
    }
  }

  /** `std::to_string` of an `int`. */
  function IntToString(i: int): string
  {
    if i < 0 then "-" + Digits(-i) else Digits(i)
  }

  /** The text of the exception for a rejected status. */
  function HttpErrorMessage(status: int, text: string): string
  {
    "HTTP error " + IntToString(status) + ": " + text
  }

  /**
   * The part of `OpenAI` that decides a request's outcome: its
   * `throw_exception_` switch (true unless changed) and the credentials the
   * requests carry.
   */
  class OpenAI {
    var apiKey: string
    var organization: string
    var throwException: bool

    /** `OpenAI()`: the credentials come from OPENAI_API_KEY and OPENAI_ORGANIZATION. */
    constructor FromEnvironment(env: Environment)
      ensures apiKey == GetEnv(env, "OPENAI_API_KEY")
      ensures organization == GetEnv(env, "OPENAI_ORGANIZATION")
      ensures throwException
    {
      apiKey := GetEnv(env, "OPENAI_API_KEY");
      organization := GetEnv(env, "OPENAI_ORGANIZATION");
      throwException := true;
    }

    method SetThrowException(throwException: bool)
      modifies this
      ensures this.throwException == throwException
      ensures apiKey == old(apiKey) && organization == old(organization)
    {
      this.throwException := throwException;
    }

    /**
     * The gate shared by the three request methods: an exception from
     * `make_request` propagates; a status outside 200..299 throws or, with
     * exceptions off, answers a null `Json()`; otherwise the body goes to the parser.
     */
    method CheckStatus(response: RawResponse) returns (r: Reply)
      ensures response.Threw? ==> r == Failed(response.message)
      ensures r.Parsed? <==> response.Response? && Success(response.statusCode)
      ensures r.Parsed? ==> r.body == response.text
      ensures r.NullJson? <==> response.Response? && !Success(response.statusCode) && !throwException
      ensures response.Response? && !Success(response.statusCode) && throwException ==>
                r == Failed(HttpErrorMessage(response.statusCode, response.text))
    {
      if response.Threw? {
        return Failed(response.message);
      }
      if response.statusCode < 200 || response.statusCode >= 300 {
        if throwException {
          return Failed(HttpErrorMessage(response.statusCode, response.text));
        } else {
          return NullJson;
        }
      }
      return Parsed(response.text);
    }

    /**
     * `post`: only a completed transfer with a 2xx status reaches the
     * parser; with exceptions off the gate itself throws nothing, with them
     * on it never answers a null `Json()`.
     */
    method Post(transport: Transport) returns (r: Reply)
      ensures r.Parsed? <==>
                !transport.InitFailed? && Success(transport.status) && (transport.Performed? || !throwException)
      ensures r.Parsed? ==> r.body == CompletedText(transport)
      ensures throwException ==> !r.NullJson?
      ensures !throwException ==> !r.Failed?
    {
      var response := MakeRequest("POST", transport, throwException);
      r := CheckStatus(response);
    }

    /** `get`: the same gate on a GET request. */
    method Get(transport: Transport) returns (r: Reply)
      ensures r.Parsed? <==>
                !transport.InitFailed? && Success(transport.status) && (transport.Performed? || !throwException)
      ensures r.Parsed? ==> r.body == CompletedText(transport)
      ensures throwException ==> !r.NullJson?
      ensures !throwException ==> !r.Failed?
    {
      var response := MakeRequest("GET", transport, throwException);
      r := CheckStatus(response);
    }

    /** `delete_req`: the same gate on a DELETE request. */
    method DeleteReq(transport: Transport) returns (r: Reply)
      ensures r.Parsed? <==>
                !transport.InitFailed? && Success(transport.status) && (transport.Performed? || !throwException)
      ensures r.Parsed? ==> r.body == CompletedText(transport)
      ensures throwException ==> !r.NullJson?
      ensures !throwException ==> !r.Failed?
    {
      var response := MakeRequest("DELETE", transport, throwException);
      r := CheckStatus(response);
    }
  }
}
