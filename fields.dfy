/**
 * The generic named-group extraction (`parse`) and the map merge (`mergeMaps`)
 * that every step of the processor is built from.
 */
module Fields {
  import opened Wrappers

  /**
   * A compiled pattern as `parse` uses it. `subexpNames` is Regexp.SubexpNames():
   * one entry per slot, slot 0 standing for the whole match, "" for an unnamed group.
   * `findStringSubmatch` is Regexp.FindStringSubmatch: None for no match, otherwise the
   * text of every slot ("" for a group that did not take part). The matching engine
   * itself is not modelled; the Patterns module states what is known of each pattern.
   */
  datatype Regexp = Regexp(subexpNames: seq<string>, findStringSubmatch: string -> Option<seq<string>>)

  datatype ParseError = NoStringMatch

  /** `len(match) > 0` in Go: the matcher found something. */
  predicate Matched(sm: Option<seq<string>>) {
    sm.Some? && |sm.value| > 0
  }

  /** Slot `i` is copied by parse: named, not slot 0, inside the match, non-empty. */
  predicate IsCapture(names: seq<string>, sm: seq<string>, i: int) {
    0 < i < |names| && i < |sm| && names[i] != "" && sm[i] != ""
  }

  /** The fields parse has collected after visiting the first `n` slots. */
  function CapturesUpTo(names: seq<string>, sm: seq<string>, n: nat): map<string, string>
    requires n <= |names|
  {
    if n == 0 then map[]
    else
      var fields := CapturesUpTo(names, sm, n - 1);
      if IsCapture(names, sm, n - 1) then fields[names[n - 1] := sm[n - 1]] else fields
  }

  /** The fields parse returns for submatch vector `sm`. */
  function Captures(names: seq<string>, sm: seq<string>): map<string, string> {
    CapturesUpTo(names, sm, |names|)
  }

  /** The text of slot `i`, or "" for a slot past the end of the match (which parse skips). */
  function Slot(sm: seq<string>, i: nat): string {
    if i < |sm| then sm[i] else ""
  }

  /** Storing one named slot: an empty capture is dropped. */
  function Put(fields: map<string, string>, name: string, capture: string): map<string, string> {
    if capture != "" then fields[name := capture] else fields
  }

  /** Visiting slot `n`: parse stores it when it is named, not slot 0, and inside the match. */
  lemma CapturesStep(names: seq<string>, sm: seq<string>, n: nat)
    requires n < |names|
    ensures CapturesUpTo(names, sm, n + 1) ==
      if names[n] != "" && 0 < n < |sm| then Put(CapturesUpTo(names, sm, n), names[n], sm[n])
      else CapturesUpTo(names, sm, n)
  {
  }

  /** Slots without a name contribute nothing. */
  lemma {:induction false} SkipUnnamed(names: seq<string>, sm: seq<string>, a: nat, b: nat)
    requires a <= b <= |names|
    requires forall j :: a <= j < b ==> names[j] == ""
    ensures CapturesUpTo(names, sm, b) == CapturesUpTo(names, sm, a)
    decreases b - a
  {
    if a < b {
      SkipUnnamed(names, sm, a, b - 1);
    }
  }

  /** What parse(data, rexp) returns. */
  function ParseOf(data: string, rexp: Regexp): Result<map<string, string>, ParseError> {
    var sm := rexp.findStringSubmatch(data);
    if !Matched(sm) then Failure(NoStringMatch)
    else Success(Captures(rexp.subexpNames, sm.value))
  }

  /** No two named slots share a name (true of every pattern the processor compiles). */
  predicate DistinctNames(names: seq<string>) {
    forall i, j :: 0 <= i < j < |names| && names[i] != "" ==> names[i] != names[j]
  }

  /**
   * parse keeps exactly the named, non-empty captures: a key is present iff some
   * copied slot carries that name, no value is empty, the empty name never appears,
   * and (names being distinct) each copied slot's text is the value of its name.
   */
  lemma {:induction false} CapturesSpec(names: seq<string>, sm: seq<string>, n: nat)
    requires n <= |names|
    ensures forall k :: k in CapturesUpTo(names, sm, n) <==>
      exists i :: 0 <= i < n && IsCapture(names, sm, i) && names[i] == k
    ensures forall k :: k in CapturesUpTo(names, sm, n) ==> k != "" && CapturesUpTo(names, sm, n)[k] != ""
    ensures DistinctNames(names) ==>
      forall i :: 0 <= i < n && IsCapture(names, sm, i) ==> CapturesUpTo(names, sm, n)[names[i]] == sm[i]
  {
    if n > 0 {
      CapturesSpec(names, sm, n - 1);
    }
  }

  /** The result of parse on a match is exactly the named, non-empty captures. */
  lemma ParseSpec(data: string, rexp: Regexp)
    ensures ParseOf(data, rexp).Failure? <==> !Matched(rexp.findStringSubmatch(data))
    ensures ParseOf(data, rexp).Success? ==>
      var sm := rexp.findStringSubmatch(data).value;
      var fields := ParseOf(data, rexp).value;
      && (forall k :: k in fields <==> exists i :: IsCapture(rexp.subexpNames, sm, i) && rexp.subexpNames[i] == k)
      && (forall k :: k in fields ==> k != "" && fields[k] != "")
      && (DistinctNames(rexp.subexpNames) ==>
            forall i :: IsCapture(rexp.subexpNames, sm, i) ==> fields[rexp.subexpNames[i]] == sm[i])
  {
    var sm := rexp.findStringSubmatch(data);
    if Matched(sm) {
      CapturesSpec(rexp.subexpNames, sm.value, |rexp.subexpNames|);
    }
  }

  /** parse: one pass over SubexpNames, copying the slots that are named and non-empty. */
  method Parse(data: string, rexp: Regexp) returns (r: Result<map<string, string>, ParseError>)
    ensures r == ParseOf(data, rexp)
  {
    var fields: map<string, string> := map[];
    var sm := rexp.findStringSubmatch(data);
    if !Matched(sm) {
      return Failure(NoStringMatch);
    }
    var submatches := sm.value;
    var names := rexp.subexpNames;
    for i := 0 to |names|
      invariant fields == CapturesUpTo(names, submatches, i)
    {
      var name := names[i];
      if name == "" {
        continue;
      }
      if i > 0 && i < |submatches| {
        if submatches[i] != "" {
          fields := fields[name := submatches[i]];
        }
      }
    }
    return Success(fields);
  }

  /**
   * mergeMaps: every entry of `src` is written into `dst`, the later write winning.
   * Go updates `dst` in place; here the updated map is returned.
   */
  method MergeMaps(dst: map<string, string>, src: map<string, string>) returns (merged: map<string, string>)
    ensures merged.Keys == dst.Keys + src.Keys
    ensures forall k :: k in src ==> merged[k] == src[k]
    ensures forall k :: k in dst && k !in src ==> merged[k] == dst[k]
    ensures merged == dst + src
  {
    merged := dst;
    var rest := src.Keys;
    while rest != {}
      invariant rest <= src.Keys
      invariant merged.Keys == dst.Keys + (src.Keys - rest)
      invariant forall k :: k in src && k !in rest ==> merged[k] == src[k]
      invariant forall k :: k in dst && (k !in src || k in rest) ==> merged[k] == dst[k]
      decreases rest
    {
      var key :| key in rest;
      merged := merged[key := src[key]];
      rest := rest - {key};
    }
  }
}
