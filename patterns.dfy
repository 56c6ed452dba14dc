/**
 * The four patterns the processor compiles, described by what any match of them
 * must look like. Each pattern is an abstract matcher (Fields.Regexp); the predicates
 * here say that the matcher's group names are the pattern's, and that every submatch
 * vector it returns is one the pattern allows: the whole match occurs in the text and
 * is the concatenation of the groups and literals the pattern prescribes, each group's
 * text is of the group's character class, and optional groups are empty or complete.
 * Nothing is said about which of several possible matches is chosen, nor that a
 * match is found whenever one exists.
 */
module Patterns {
  import opened Wrappers
  import opened GoStrings
  import opened Fields

  // ---- group names, slot by slot (slot 0 is the whole match) ----

  /** timestamp (1) with year..fraction (2-8), pid (9), severity_label (10), python_module (11), payload (12), its last character (13). */
  const LogNames: seq<string> :=
    ["", "timestamp", "", "", "", "", "", "", "", "pid", "severity_label", "python_module", "payload", ""]

  /** "req-" (1), request_id (2), the optional user/tenant group (3), user_id (4), tenant_id (5). */
  const RequestContextNames: seq<string> :=
    ["", "", "request_id", "", "user_id", "tenant_id"]

  /** method, url, version, "status: " (4), status, "len: " (6), size, "time: " (8), time. */
  const HttpRequestContextNames: seq<string> :=
    ["", "http_method", "http_url", "http_version", "", "http_status", "", "http_response_size", "", "http_response_time"]

  /** client address, "," (2), server address. */
  const HttpRequestAddressesNames: seq<string> :=
    ["", "http_client_ip_address", "", "http_server_ip_address"]

  // ---- character classes (RE2's ASCII classes) ----

  /** `\s`: tab, newline, form feed, carriage return, space. */
  predicate IsSpace(c: char) {
    c == '\t' || c == '\n' || c == '\U{C}' || c == '\r' || c == ' '
  }

  /** `\w`: letters, digits, underscore. */
  predicate IsWordChar(c: char) {
    IsDigit(c) || 'a' <= c <= 'z' || 'A' <= c <= 'Z' || c == '_'
  }

  predicate AllDigits(s: string) {
    forall i :: 0 <= i < |s| ==> IsDigit(s[i])
  }

  predicate AllNonSpace(s: string) {
    forall i :: 0 <= i < |s| ==> !IsSpace(s[i])
  }

  /** `.` matches anything but a newline. */
  predicate NoNewline(s: string) {
    forall i :: 0 <= i < |s| ==> s[i] != '\n'
  }

  /** `\d+` */
  predicate DigitRun(s: string) {
    |s| > 0 && AllDigits(s)
  }

  /** `\S+` */
  predicate NonSpaceRun(s: string) {
    |s| > 0 && AllNonSpace(s)
  }

  /** `\w+` */
  predicate WordRun(s: string) {
    |s| > 0 && forall i :: 0 <= i < |s| ==> IsWordChar(s[i])
  }

  /** The patterns are unanchored: the whole match may sit anywhere in the text. */
  ghost predicate Occurs(x: string, s: string) {
    exists i :: 0 <= i <= |s| && x <= s[i..]
  }

  lemma OccursBounds(x: string, s: string)
    requires Occurs(x, s)
    ensures |x| <= |s|
    ensures |x| > 0 ==> x[0] in s
  {
    var i :| 0 <= i <= |s| && x <= s[i..];
    if |x| > 0 {
      assert s[i] == x[0];
    }
  }

  /** The parts written one after another. */
  function Concat(parts: seq<string>): string {
    if parts == [] then "" else parts[0] + Concat(parts[1..])
  }

  // ---- 1) the log envelope ----

  /**
   * `(\d{4})-(\d{2})-(\d{2})[( |T)](\d{2}):(\d{2}):(\d{2})[.]?(\d+)?` with its seven
   * inner groups `parts`. The separator is a character class, so any of `( |T)` is
   * accepted, not only a space or a T.
   */
  predicate TimestampShaped(t: string, parts: seq<string>) {
    && |t| >= 19 && |parts| == 7
    && AllDigits(t[..4]) && t[4] == '-' && AllDigits(t[5..7]) && t[7] == '-' && AllDigits(t[8..10])
    && t[10] in "( |T)"
    && AllDigits(t[11..13]) && t[13] == ':' && AllDigits(t[14..16]) && t[16] == ':' && AllDigits(t[17..19])
    && parts[0] == t[..4] && parts[1] == t[5..7] && parts[2] == t[8..10]
    && parts[3] == t[11..13] && parts[4] == t[14..16] && parts[5] == t[17..19]
    && AllDigits(parts[6]) && (t[19..] == parts[6] || t[19..] == "." + parts[6])
  }

  /** `<timestamp>[ ](?P<pid>\d+)[ ](?P<severity_label>\S+)[ ](?P<python_module>\S+)[ ](?P<payload>(\n|.)*)` */
  ghost predicate LogMatch(s: string, m: seq<string>) {
    && |m| == |LogNames|
    && Occurs(m[0], s)
    && m[0] == m[1] + " " + m[9] + " " + m[10] + " " + m[11] + " " + m[12]
    && TimestampShaped(m[1], m[2..9])
    && DigitRun(m[9]) && NonSpaceRun(m[10]) && NonSpaceRun(m[11])
    && (if m[12] == "" then m[13] == "" else m[13] == [m[12][|m[12]| - 1]])
  }

  ghost predicate LogPattern(r: Regexp) {
    && r.subexpNames == LogNames
    && forall s :: r.findStringSubmatch(s).Some? ==> LogMatch(s, r.findStringSubmatch(s).value)
  }

  // ---- 2) the request context ----

  /**
   * Runs of non-space characters of the given widths, each pair separated by an
   * optional '-': `\S{8}[-]?\S{4}[-]?\S{4}[-]?\S{4}[-]?\S{12}` for widths [8, 4, 4, 4, 12].
   */
  predicate Grouped(u: string, widths: seq<nat>)
    decreases |widths|
  {
    if widths == [] then u == []
    else
      && |u| >= widths[0] && AllNonSpace(u[..widths[0]])
      && var rest := u[widths[0]..];
         if |widths| == 1 then rest == []
         else Grouped(rest, widths[1..]) || (rest != [] && rest[0] == '-' && Grouped(rest[1..], widths[1..]))
  }

  const UuidWidths: seq<nat> := [8, 4, 4, 4, 12]

  /** The request, user and tenant id shape: hyphens optional, and `\S` rather than hex digits. */
  predicate UuidShaped(u: string) {
    Grouped(u, UuidWidths)
  }

  function Sum(widths: seq<nat>): nat {
    if widths == [] then 0 else widths[0] + Sum(widths[1..])
  }

  /** A grouped token is at least as long as its widths add up to, and holds no whitespace. */
  lemma {:induction false} GroupedBounds(u: string, widths: seq<nat>)
    requires Grouped(u, widths)
    ensures |u| >= Sum(widths)
    ensures AllNonSpace(u)
    decreases |widths|
  {
    if widths != [] && |widths| > 1 {
      var rest := u[widths[0]..];
      assert u == u[..widths[0]] + rest;
      if Grouped(rest, widths[1..]) {
        GroupedBounds(rest, widths[1..]);
      } else {
        GroupedBounds(rest[1..], widths[1..]);
        assert rest == [rest[0]] + rest[1..];
      }
      forall i | 0 <= i < |u| ensures !IsSpace(u[i]) {
        if i >= widths[0] {
          assert u[i] == rest[i - widths[0]];
        }
      }
    }
  }

  /** Every id the request-context pattern captures has at least 32 characters, none of them whitespace. */
  lemma UuidBounds(u: string)
    requires UuidShaped(u)
    ensures |u| >= 32 && AllNonSpace(u)
  {
    GroupedBounds(u, UuidWidths);
    assert Sum(UuidWidths) == 32;
  }

  /** `whole` is `head`, then any characters but newline, then `]`. */
  predicate BracketTail(whole: string, head: string) {
    && |head| < |whole| && whole[..|head|] == head && whole[|whole| - 1] == ']'
    && NoNewline(whole[|head|..|whole| - 1])
  }

  /** `\[(req-)?(?P<request_id>uuid)([ ](?P<user_id>uuid)[ ](?P<tenant_id>uuid))?.*\]` */
  ghost predicate RequestContextMatch(s: string, m: seq<string>) {
    && |m| == |RequestContextNames|
    && Occurs(m[0], s)
    && (m[1] == "" || m[1] == "req-")
    && UuidShaped(m[2])
    && ((m[3] == "" && m[4] == "" && m[5] == "")
        || (m[3] == " " + m[4] + " " + m[5] && UuidShaped(m[4]) && UuidShaped(m[5])))
    && BracketTail(m[0], "[" + m[1] + m[2] + m[3])
  }

  ghost predicate RequestContextPattern(r: Regexp) {
    && r.subexpNames == RequestContextNames
    && forall s :: r.findStringSubmatch(s).Some? ==> RequestContextMatch(s, r.findStringSubmatch(s).value)
  }

  // ---- 3) the HTTP request context ----

  /** `\d+.\d+`: the dot is unescaped, so any character but newline may separate the digits. */
  ghost predicate LooseDecimal(t: string) {
    exists j :: 0 < j < |t| - 1 && DigitRun(t[..j]) && t[j] != '\n' && DigitRun(t[j + 1..])
  }

  /**
   * `"(?P<http_method>\w+)[ ](?P<http_url>.*)[ ]HTTP\/(?P<http_version>\d.\d)"[ ](status: )?(?P<http_status>\d+)[ ](len: )?(?P<http_response_size>\d+)[ ](time: )?(?P<http_response_time>\d+.\d+)`
   */
  ghost predicate HttpRequestContextMatch(s: string, m: seq<string>) {
    && |m| == |HttpRequestContextNames|
    && Occurs(m[0], s)
    && m[0] == Concat(["\"", m[1], " ", m[2], " HTTP/", m[3], "\" ", m[4], m[5], " ", m[6], m[7], " ", m[8], m[9]])
    && WordRun(m[1]) && NoNewline(m[2])
    && |m[3]| == 3 && IsDigit(m[3][0]) && m[3][1] != '\n' && IsDigit(m[3][2])
    && (m[4] == "" || m[4] == "status: ") && DigitRun(m[5])
    && (m[6] == "" || m[6] == "len: ") && DigitRun(m[7])
    && (m[8] == "" || m[8] == "time: ") && LooseDecimal(m[9])
  }

  ghost predicate HttpRequestContextPattern(r: Regexp) {
    && r.subexpNames == HttpRequestContextNames
    && forall s :: r.findStringSubmatch(s).Some? ==> HttpRequestContextMatch(s, r.findStringSubmatch(s).value)
  }

  // ---- 4) the client and server addresses ----

  /** `\d{1,3}` repeated `n` times with `[.]` between: a dotted quad for n = 4. */
  predicate DottedOctets(q: string, n: nat)
    decreases n
  {
    if n <= 1 then 1 <= |q| <= 3 && AllDigits(q)
    else
      || OctetThenDots(q, 1, n) || OctetThenDots(q, 2, n) || OctetThenDots(q, 3, n)
  }

  predicate OctetThenDots(q: string, w: nat, n: nat)
    requires n >= 2
    decreases n, 0
  {
    w < |q| && AllDigits(q[..w]) && q[w] == '.' && DottedOctets(q[w + 1..], n - 1)
  }

  /** `(?P<http_client_ip_address>quad)([,])?(?P<http_server_ip_address>quad)?` */
  ghost predicate HttpRequestAddressesMatch(s: string, m: seq<string>) {
    && |m| == |HttpRequestAddressesNames|
    && Occurs(m[0], s)
    && m[0] == m[1] + m[2] + m[3]
    && DottedOctets(m[1], 4)
    && (m[2] == "" || m[2] == ",")
    && (m[3] == "" || DottedOctets(m[3], 4))
  }

  ghost predicate HttpRequestAddressesPattern(r: Regexp) {
    && r.subexpNames == HttpRequestAddressesNames
    && forall s :: r.findStringSubmatch(s).Some? ==> HttpRequestAddressesMatch(s, r.findStringSubmatch(s).value)
  }

  // ---- what parse returns for each pattern ----

  lemma LogCaptures(m: seq<string>)
    ensures Captures(LogNames, m) ==
      Put(Put(Put(Put(Put(map[], "timestamp", Slot(m, 1)), "pid", Slot(m, 9)), "severity_label", Slot(m, 10)), "python_module", Slot(m, 11)), "payload", Slot(m, 12))
  {
    var names := LogNames;
    CapturesStep(names, m, 0);
    CapturesStep(names, m, 1);
    SkipUnnamed(names, m, 2, 9);
    CapturesStep(names, m, 9);
    CapturesStep(names, m, 10);
    CapturesStep(names, m, 11);
    CapturesStep(names, m, 12);
    CapturesStep(names, m, 13);
  }

  lemma RequestContextCaptures(m: seq<string>)
    ensures Captures(RequestContextNames, m) ==
      Put(Put(Put(map[], "request_id", Slot(m, 2)), "user_id", Slot(m, 4)), "tenant_id", Slot(m, 5))
  {
    var names := RequestContextNames;
    CapturesStep(names, m, 0);
    CapturesStep(names, m, 1);
    CapturesStep(names, m, 2);
    CapturesStep(names, m, 3);
    CapturesStep(names, m, 4);
    CapturesStep(names, m, 5);
  }

  lemma HttpRequestContextCaptures(m: seq<string>)
    ensures Captures(HttpRequestContextNames, m) ==
      Put(Put(Put(Put(Put(Put(map[], "http_method", Slot(m, 1)), "http_url", Slot(m, 2)), "http_version", Slot(m, 3)),
        "http_status", Slot(m, 5)), "http_response_size", Slot(m, 7)), "http_response_time", Slot(m, 9))
  {
    var names := HttpRequestContextNames;
    CapturesStep(names, m, 0);
    CapturesStep(names, m, 1);
    CapturesStep(names, m, 2);
    CapturesStep(names, m, 3);
    CapturesStep(names, m, 4);
    CapturesStep(names, m, 5);
    CapturesStep(names, m, 6);
    CapturesStep(names, m, 7);
    CapturesStep(names, m, 8);
    CapturesStep(names, m, 9);
  }

  lemma HttpRequestAddressesCaptures(m: seq<string>)
    ensures Captures(HttpRequestAddressesNames, m) ==
      Put(Put(map[], "http_client_ip_address", Slot(m, 1)), "http_server_ip_address", Slot(m, 3))
  {
    var names := HttpRequestAddressesNames;
    CapturesStep(names, m, 0);
    CapturesStep(names, m, 1);
    CapturesStep(names, m, 2);
    CapturesStep(names, m, 3);
  }
}
