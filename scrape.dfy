/**
 * `_extract_from_body`: `re.search(pattern, body).group(1)` for the two patterns the
 * client uses, `state=([a-zA-Z0-9_-]+)` and `code=([a-zA-Z0-9_-]+)`, written as a
 * scanner. A pattern is its literal prefix (`StateKey`, `CodeKey`) followed by a
 * greedy run of one or more token characters.
 */
module Scrape {
  import opened Common

  const StateKey: string := "state="
  const CodeKey: string := "code="

  /** The character class `[a-zA-Z0-9_-]`. */
  predicate IsTokenChar(c: char) {
    ('a' <= c <= 'z') || ('A' <= c <= 'Z') || ('0' <= c <= '9') || c == '_' || c == '-'
  }

  /** The pattern `key([a-zA-Z0-9_-]+)` matches at position i of body. */
  predicate MatchesAt(body: string, key: string, i: nat) {
    i + |key| < |body| && body[i..i + |key|] == key && IsTokenChar(body[i + |key|])
  }

  /** i is where `re.search` matches: the leftmost position at which the pattern matches. */
  predicate IsLeftmostMatch(body: string, key: string, i: nat) {
    MatchesAt(body, key, i) && forall k: nat | k < i :: !MatchesAt(body, key, k)
  }

  /** The greedy `+`: the run of token characters starting at j. */
  function TokenRun(s: string, j: nat): string
    decreases |s| - j
  {
    if j < |s| && IsTokenChar(s[j]) then [s[j]] + TokenRun(s, j + 1) else []
  }

  /** The run is a slice of s made of token characters, and it is the longest one: it
      stops at the end of s or before a character outside the class. */
  lemma {:induction false} TokenRunSpec(s: string, j: nat)
    requires j <= |s|
    decreases |s| - j
    ensures var r := TokenRun(s, j);
      && j + |r| <= |s| && r == s[j..j + |r|]
      && (forall k | 0 <= k < |r| :: IsTokenChar(r[k]))
      && (j + |r| == |s| || !IsTokenChar(s[j + |r|]))
  {
    if j < |s| && IsTokenChar(s[j]) {
      TokenRunSpec(s, j + 1);
      var r' := TokenRun(s, j + 1);
      var e := j + 1 + |r'|;
      assert r' == s[j + 1..e];
      assert s[j..e] == [s[j]] + s[j + 1..e];
    }
  }

  /** The leftmost match at or after position `from`. */
  function FirstMatch(body: string, key: string, from: nat): Option<nat>
    decreases |body| - from
  {
    if from >= |body| then None
    else if MatchesAt(body, key, from) then Some(from)
    else FirstMatch(body, key, from + 1)
  }

  /** A match found is at or after `from` with none before it; no match found means none
      at or after `from`. */
  lemma {:induction false} FirstMatchSpec(body: string, key: string, from: nat)
    decreases |body| - from
    ensures var r := FirstMatch(body, key, from);
      && (r.Some? ==> from <= r.value && MatchesAt(body, key, r.value))
      && (r.Some? ==> forall k: nat | from <= k < r.value :: !MatchesAt(body, key, k))
      && (r.None? ==> forall k: nat | from <= k :: !MatchesAt(body, key, k))
  {
    if from < |body| && !MatchesAt(body, key, from) {
      FirstMatchSpec(body, key, from + 1);
    }
  }

  /** `_extract_from_body(body, key + "([a-zA-Z0-9_-]+)")`. */
  function ExtractFromBody(body: string, key: string): Option<string> {
    match FirstMatch(body, key, 0)
    case None => None
    case Some(i) => Some(TokenRun(body, i + |key|))
  }

  /** `re.search` semantics, part one: None exactly when the pattern matches nowhere. */
  lemma ExtractFromBodyNone(body: string, key: string)
    ensures ExtractFromBody(body, key).None? <==> forall i: nat :: !MatchesAt(body, key, i)
  {
    FirstMatchSpec(body, key, 0);
  }

  /** Part two: a result is group 1 of the leftmost match. */
  lemma ExtractFromBodyLeftmost(body: string, key: string)
    ensures var r := ExtractFromBody(body, key);
      r.Some? ==> exists i: nat :: IsLeftmostMatch(body, key, i) && r.value == TokenRun(body, i + |key|)
  {
    FirstMatchSpec(body, key, 0);
    var m := FirstMatch(body, key, 0);
    if m.Some? {
      assert IsLeftmostMatch(body, key, m.value);
    }
  }

  /** Part three: a result is a non-empty run of token characters. */
  lemma ExtractFromBodyToken(body: string, key: string)
    ensures var r := ExtractFromBody(body, key);
      r.Some? ==> |r.value| > 0 && forall k | 0 <= k < |r.value| :: IsTokenChar(r.value[k])
  {
    FirstMatchSpec(body, key, 0);
    var m := FirstMatch(body, key, 0);
    if m.Some? {
      TokenRunSpec(body, m.value + |key|);
    }
  }

  /** Two bodies: a token is found after `state=`, and a page whose `state=` is followed
      by a character outside the class yields None. */
  lemma ExtractExample()
    ensures ExtractFromBody("state=abc123\"", StateKey) == Some("abc123")
    ensures ExtractFromBody("<p>state=</p>", StateKey) == None
  {
    var stub := "state=abc123\"";
    assert MatchesAt(stub, StateKey, 0);
    assert TokenRun(stub, 12) == [];
    assert TokenRun(stub, 6) == "abc123";
    var body := "<p>state=</p>";
    forall i: nat ensures !MatchesAt(body, StateKey, i) {
      NoMatchAt(body, i);
    }
    ExtractFromBodyNone(body, StateKey);
  }

  /** The position-by-position check behind the second example. */
  lemma NoMatchAt(body: string, i: nat)
    requires body == "<p>state=</p>"
    ensures !MatchesAt(body, StateKey, i)
  {
    if i + |StateKey| < |body| {
      assert body[i..i + |StateKey|][5] == body[i + 5];
    }
  }
}
