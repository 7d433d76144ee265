/** The URL template resolver `transformUrl`: placeholders `/:name` are
    found with the global pattern /\/:([a-z_][\w-]*)/gi and each matched text
    is then replaced, in order, by `'/' + (config[name] ?? '')` with
    `String.prototype.replace`, which rewrites the FIRST occurrence of the
    matched text in the string as it stands at that point. */
module UrlTemplate {
  import opened JsValues

  /** `[a-z_]` under the `i` flag. */
  predicate IsNameStart(c: char)
  {
    'a' <= c <= 'z' || 'A' <= c <= 'Z' || c == '_'
  }

  /** `[\w-]`. */
  predicate IsNameChar(c: char)
  {
    IsNameStart(c) || '0' <= c <= '9' || c == '-'
  }

  /** The pattern can start a match at position k of s: a slash, a colon and
      a name start. A colon after a digit (a port) or without a slash before
      it never qualifies. */
  predicate PlaceholderAt(s: string, k: int)
  {
    0 <= k && k + 2 < |s| && s[k] == '/' && s[k + 1] == ':' && IsNameStart(s[k + 2])
  }

  /** Length of the longest run of name characters at the start of s:
      the greedy `[\w-]*`. */
  function NameRun(s: string): (n: nat)
    ensures n <= |s|
    ensures forall i :: 0 <= i < n ==> IsNameChar(s[i])
    ensures n < |s| ==> !IsNameChar(s[n])
  {
    if s != [] && IsNameChar(s[0]) then 1 + NameRun(s[1..]) else 0
  }

  /** Length of the match that starts at the beginning of s. */
  function MatchLength(s: string): (n: nat)
    requires PlaceholderAt(s, 0)
    ensures 3 <= n <= |s|
  {
    3 + NameRun(s[3..])
  }

  /** A text the global pattern can return: `/:` and a maximal name. */
  predicate IsPlaceholder(r: string)
  {
    PlaceholderAt(r, 0) && MatchLength(r) == |r|
  }

  /** `s.match(/\/:([a-z_][\w-]*)/gi)`, with a null result read as no match:
      the matched texts, left to right, never overlapping. */
  function Matches(s: string): (ms: seq<string>)
    ensures forall i :: 0 <= i < |ms| ==> IsPlaceholder(ms[i])
    decreases |s|
  {
    if s == [] then []
    else if PlaceholderAt(s, 0) then
      var n := MatchLength(s);
      assert IsPlaceholder(s[..n]) by {
        assert s[..n][3..] == s[3..][..n - 3];
        NameRunPrefix(s[3..], n - 3);
      }
      [s[..n]] + Matches(s[n..])
    else Matches(s[1..])
  }

  /** Cutting a string right after its name run does not change the run. */
  lemma {:induction false} NameRunPrefix(s: string, m: nat)
    requires m == NameRun(s)
    ensures NameRun(s[..m]) == m
    decreases m
  {
    if m > 0 {
      assert s[..m][1..] == s[1..][..m - 1];
      NameRunPrefix(s[1..], m - 1);
    }
  }

  /** The pattern matches nowhere exactly when no position starts a placeholder. */
  lemma {:induction false} NoMatchIff(s: string)
    ensures Matches(s) == [] <==> forall k :: !PlaceholderAt(s, k)
    decreases |s|
  {
    if s != [] {
      if PlaceholderAt(s, 0) {
      } else {
        NoMatchIff(s[1..]);
        forall k | PlaceholderAt(s, k) ensures PlaceholderAt(s[1..], k - 1) {}
        forall k | PlaceholderAt(s[1..], k) ensures PlaceholderAt(s, k + 1) {}
      }
    }
  }

  /** Whether pat occurs in s at position k. */
  predicate OccursAt(s: string, pat: string, k: int)
  {
    0 <= k && k + |pat| <= |s| && s[k..k + |pat|] == pat
  }

  function IndexFrom(s: string, pat: string, i: nat): (r: Option<nat>)
    ensures r.Some? ==> i <= r.value && OccursAt(s, pat, r.value)
    ensures r.Some? ==> forall k :: i <= k < r.value ==> !OccursAt(s, pat, k)
    ensures r.None? ==> forall k :: i <= k ==> !OccursAt(s, pat, k)
    decreases |s| - i
  {
    if i + |pat| > |s| then None
    else if s[i..i + |pat|] == pat then Some(i)
    else IndexFrom(s, pat, i + 1)
  }

  /** `s.indexOf(pat)`: the first position where pat occurs, if any. */
  function IndexOf(s: string, pat: string): (r: Option<nat>)
    ensures r.Some? <==> exists k :: OccursAt(s, pat, k)
    ensures r.Some? ==> OccursAt(s, pat, r.value) && forall k :: 0 <= k < r.value ==> !OccursAt(s, pat, k)
  {
    IndexFrom(s, pat, 0)
  }

  /** The text `String.prototype.replace` inserts for a string pattern and a
      string replacement: `$$` gives `$`, `$&` the matched text, "$`" the text
      before the match, `$'` the text after it; any other `$` (there are no
      capture groups) stays as it is. */
  function Expand(repl: string, matched: string, before: string, after: string): string
    decreases |repl|
  {
    if repl == [] then []
    else if repl[0] == '$' && |repl| >= 2 && repl[1] == '$' then "$" + Expand(repl[2..], matched, before, after)
    else if repl[0] == '$' && |repl| >= 2 && repl[1] == '&' then matched + Expand(repl[2..], matched, before, after)
    else if repl[0] == '$' && |repl| >= 2 && repl[1] == '`' then before + Expand(repl[2..], matched, before, after)
    else if repl[0] == '$' && |repl| >= 2 && repl[1] == '\'' then after + Expand(repl[2..], matched, before, after)
    else [repl[0]] + Expand(repl[1..], matched, before, after)
  }

  /** A replacement without `$` is inserted literally. */
  lemma {:induction false} ExpandLiteral(repl: string, matched: string, before: string, after: string)
    requires forall i :: 0 <= i < |repl| ==> repl[i] != '$'
    ensures Expand(repl, matched, before, after) == repl
    decreases |repl|
  {
    if repl != [] {
      ExpandLiteral(repl[1..], matched, before, after);
    }
  }

  /** `s.replace(pat, repl)` for a string pattern: only the first occurrence
      is rewritten; without one, s comes back as it is. */
  function ReplaceFirst(s: string, pat: string, repl: string): string
  {
    match IndexOf(s, pat)
    case None => s
    case Some(i) => s[..i] + Expand(repl, pat, s[..i], s[i + |pat|..]) + s[i + |pat|..]
  }

  /** The text substituted for a placeholder's key: `config?.[key] ?? ''`. */
  function Lookup(config: Record, key: string): string
  {
    var v := Get(config, key);
    if v.Null? || v.Undefined? then "" else ToJsString(v)
  }

  /** `` `/${config?.[key] ?? ''}` `` for the matched text r, whose key is `r.slice(2)`. */
  function Replacement(config: Record, r: string): string
  {
    "/" + Lookup(config, if |r| >= 2 then r[2..] else "")
  }

  /** The `forEach` over the matched texts, each one replacing its first
      occurrence in the url as rewritten so far. */
  function ReplaceEach(url: string, ms: seq<string>, config: Record): string
    decreases |ms|
  {
    if ms == [] then url
    else ReplaceEach(ReplaceFirst(url, ms[0], Replacement(config, ms[0])), ms[1..], config)
  }

  /** What `transformUrl(url, config)` returns. A url without a placeholder
      comes back unchanged. */
  function Resolve(url: string, config: Record): (r: string)
    ensures Matches(url) == [] ==> r == url
  {
    ReplaceEach(url, Matches(url), config)
  }

  /** `transformUrl`: the url variable is reassigned once per matched text. */
  method TransformUrl(url: string, config: Record) returns (r: string)
    ensures r == Resolve(url, config)
  {
    var ms := Matches(url);
    r := url;
    var i := 0;
    while i < |ms|
      invariant 0 <= i <= |ms|
      invariant ReplaceEach(r, ms[i..], config) == Resolve(url, config)
    {
      assert ms[i..][1..] == ms[i + 1..];
      r := ReplaceFirst(r, ms[i], Replacement(config, ms[i]));
      i := i + 1;
    }
  }

  // ---------------------------------------------------------------------
  // A one-pass reference: every placeholder replaced where it stands.

  /** Scans s once from the left and writes `/` plus the key's value in place
      of each placeholder, copying every other character. */
  function Substitute(s: string, config: Record): string
    decreases |s|
  {
    if s == [] then []
    else if PlaceholderAt(s, 0) then
      var n := MatchLength(s);
      Replacement(config, s[..n]) + Substitute(s[n..], config)
    else [s[0]] + Substitute(s[1..], config)
  }

  /** A substituted text that cannot form or hide a placeholder: no `/`,
      no `:` and no `$`. */
  predicate Clean(v: string)
  {
    forall i :: 0 <= i < |v| ==> v[i] != '/' && v[i] != ':' && v[i] != '$'
  }

  /** Every value the config holds is clean. */
  predicate CleanConfig(config: Record)
  {
    forall k :: k in config ==> Clean(Lookup(config, k))
  }

  /** Every value substituted for a placeholder the pattern finds in s is
      clean; keys no placeholder names are not looked at. */
  predicate CleanFor(s: string, config: Record)
    decreases |s|
  {
    if s == [] then true
    else if PlaceholderAt(s, 0) then
      var n := MatchLength(s);
      Clean(Lookup(config, s[..n][2..])) && CleanFor(s[n..], config)
    else CleanFor(s[1..], config)
  }

  /** CleanFor says exactly that the value for each matched text's key is clean. */
  lemma {:induction false} CleanForIff(s: string, config: Record)
    ensures CleanFor(s, config) <==>
      forall i :: 0 <= i < |Matches(s)| ==> Clean(Lookup(config, Matches(s)[i][2..]))
    decreases |s|
  {
    if s != [] {
      if PlaceholderAt(s, 0) {
        var n := MatchLength(s);
        CleanForIff(s[n..], config);
        MatchesHead(s);
        var ms := Matches(s);
        assert ms[0] == s[..n] && ms[1..] == Matches(s[n..]);
        assert forall i :: 1 <= i < |ms| ==> ms[i] == Matches(s[n..])[i - 1];
      } else {
        CleanForIff(s[1..], config);
        assert Matches(s) == Matches(s[1..]) && CleanFor(s, config) == CleanFor(s[1..], config);
      }
    }
  }

  /** A config all of whose values are clean is clean for every url. */
  lemma {:induction false} CleanConfigCleanFor(s: string, config: Record)
    requires CleanConfig(config)
    ensures CleanFor(s, config)
    decreases |s|
  {
    if s != [] {
      if PlaceholderAt(s, 0) {
        var n := MatchLength(s);
        LookupClean(config, s[..n][2..]);
        CleanConfigCleanFor(s[n..], config);
      } else {
        CleanConfigCleanFor(s[1..], config);
      }
    }
  }

  /** No placeholder the pattern matches in s is directly followed by `:`. */
  predicate NoColonAfterPlaceholder(s: string)
    decreases |s|
  {
    if s == [] then true
    else if PlaceholderAt(s, 0) then
      var n := MatchLength(s);
      (n < |s| ==> s[n] != ':') && NoColonAfterPlaceholder(s[n..])
    else NoColonAfterPlaceholder(s[1..])
  }

  lemma LookupClean(config: Record, key: string)
    requires CleanConfig(config)
    ensures Clean(Lookup(config, key))
  {
    if key !in config {
      assert Lookup(config, key) == "";
    }
  }

  /** The first occurrence of the placeholder at the head of t, in p + t,
      is at |p| when no placeholder starts inside p. */
  lemma FirstOccurrence(p: string, t: string)
    requires PlaceholderAt(t, 0)
    requires forall k :: 0 <= k < |p| ==> !PlaceholderAt(p + t, k)
    ensures IndexOf(p + t, t[..MatchLength(t)]) == Some(|p|)
  {
    var n := MatchLength(t);
    var r := t[..n];
    var s := p + t;
    assert OccursAt(s, r, |p|) by { assert s[|p|..|p| + n] == t[..n]; }
    forall k | 0 <= k < |p| ensures !OccursAt(s, r, k) {
      assert !PlaceholderAt(s, k);
      if k + n <= |s| {
        assert s[k..k + n][0] == s[k] && s[k..k + n][1] == s[k + 1] && s[k..k + n][2] == s[k + 2];
      }
    }
  }

  /** Replacing at a known first occurrence with a text free of `$`. */
  lemma ReplaceFirstAt(s: string, pat: string, repl: string, i: nat)
    requires IndexOf(s, pat) == Some(i)
    requires forall j :: 0 <= j < |repl| ==> repl[j] != '$'
    ensures ReplaceFirst(s, pat, repl) == s[..i] + repl + s[i + |pat|..]
  {
    ExpandLiteral(repl, pat, s[..i], s[i + |pat|..]);
  }

  /** Writing `/` and a clean value in place of a placeholder creates no
      placeholder up to the end of what was written. */
  lemma WriteKeepsClear(p: string, t: string, v: string, rest: string)
    requires forall k :: 0 <= k < |p| ==> !PlaceholderAt(p + t, k)
    requires |t| > 0 && t[0] == '/'
    requires Clean(v)
    requires |v| == 0 && |rest| > 0 ==> rest[0] != ':'
    ensures forall k :: 0 <= k < |p| + 1 + |v| ==> !PlaceholderAt(p + ("/" + v) + rest, k)
  {
    var s := p + t;
    var s' := p + ("/" + v) + rest;
    forall k | 0 <= k < |p| + 1 + |v| ensures !PlaceholderAt(s', k) {
      if k + 2 < |p| {
        assert s'[k] == s[k] && s'[k + 1] == s[k + 1] && s'[k + 2] == s[k + 2];
        assert !PlaceholderAt(s, k);
      } else if k + 2 == |p| {
        assert s'[k + 2] == '/';
      } else if k + 1 == |p| {
        assert s'[k + 1] == '/';
      } else if k == |p| {
        if |v| > 0 {
          assert s'[k + 1] == v[0];
        } else if k + 1 < |s'| {
          assert s'[k + 1] == rest[0];
        }
      } else {
        assert s'[k] == v[k - |p| - 1];
      }
    }
  }

  /** The scan returns the head placeholder of t, then the matches of the rest. */
  lemma MatchesHead(t: string)
    requires PlaceholderAt(t, 0)
    ensures Matches(t) == [t[..MatchLength(t)]] + Matches(t[MatchLength(t)..])
  {
  }

  /** The one-pass scan writes the head placeholder's value, then scans the rest. */
  lemma SubstituteHead(t: string, config: Record)
    requires PlaceholderAt(t, 0)
    ensures Substitute(t, config) == Replacement(config, t[..MatchLength(t)]) + Substitute(t[MatchLength(t)..], config)
  {
  }

  lemma ReplaceEachCons(s: string, r: string, ms: seq<string>, config: Record)
    ensures ReplaceEach(s, [r] + ms, config) == ReplaceEach(ReplaceFirst(s, r, Replacement(config, r)), ms, config)
  {
    assert ([r] + ms)[1..] == ms;
  }

  /** One placeholder step of the forEach: the head placeholder of t is
      rewritten where it stands. */
  lemma ReplaceHead(p: string, t: string, config: Record)
    requires PlaceholderAt(t, 0)
    requires Clean(Lookup(config, t[..MatchLength(t)][2..]))
    requires forall k :: 0 <= k < |p| ==> !PlaceholderAt(p + t, k)
    ensures var n := MatchLength(t);
      ReplaceEach(p + t, Matches(t), config)
        == ReplaceEach((p + Replacement(config, t[..n])) + t[n..], Matches(t[n..]), config)
  {
    var n := MatchLength(t);
    var r := t[..n];
    var repl := Replacement(config, r);
    ReplacementLiteral(config, r);
    FirstOccurrence(p, t);
    SpliceAt(p, t, n, repl);
    ReplaceFirstAt(p + t, r, repl, |p|);
    MatchesHead(t);
    ReplaceEachCons(p + t, r, Matches(t[n..]), config);
  }

  /** A replacement text whose key's value is clean holds no `$`. */
  lemma ReplacementLiteral(config: Record, r: string)
    requires |r| >= 2 && Clean(Lookup(config, r[2..]))
    ensures forall j :: 0 <= j < |Replacement(config, r)| ==> Replacement(config, r)[j] != '$'
  {
    assert Replacement(config, r) == "/" + Lookup(config, r[2..]);
  }

  /** The pieces around position |p| of p + t. */
  lemma SpliceAt(p: string, t: string, n: nat, repl: string)
    requires n <= |t|
    ensures (p + t)[..|p|] + repl + (p + t)[|p| + |t[..n]|..] == p + repl + t[n..]
  {
    assert (p + t)[..|p|] == p;
    assert (p + t)[|p| + n..] == t[n..];
  }

  /** The loop invariant of the equivalence: p is the part already written
      (in which no placeholder starts) and t the rest of the original url. */
  lemma {:induction false} ResolveSplit(p: string, t: string, config: Record)
    requires CleanFor(t, config)
    requires NoColonAfterPlaceholder(t)
    requires forall k :: 0 <= k < |p| ==> !PlaceholderAt(p + t, k)
    ensures ReplaceEach(p + t, Matches(t), config) == p + Substitute(t, config)
    ensures forall k :: 0 <= k < |p + Substitute(t, config)| ==> !PlaceholderAt(p + Substitute(t, config), k)
    decreases |t|, 1
  {
    if t == [] {
      assert p + t == p;
      assert p + Substitute(t, config) == p;
    } else if PlaceholderAt(t, 0) {
      ResolveSplitPlaceholder(p, t, config);
    } else {
      ResolveSplitChar(p, t, config);
    }
  }

  /** The step of ResolveSplit where t starts with a placeholder. */
  lemma {:induction false} ResolveSplitPlaceholder(p: string, t: string, config: Record)
    requires CleanFor(t, config)
    requires NoColonAfterPlaceholder(t)
    requires forall k :: 0 <= k < |p| ==> !PlaceholderAt(p + t, k)
    requires PlaceholderAt(t, 0)
    ensures ReplaceEach(p + t, Matches(t), config) == p + Substitute(t, config)
    ensures forall k :: 0 <= k < |p + Substitute(t, config)| ==> !PlaceholderAt(p + Substitute(t, config), k)
    decreases |t|, 0
  {
    var n := MatchLength(t);
    var rest := t[n..];
    var v := Lookup(config, t[..n][2..]);
    var repl := Replacement(config, t[..n]);
    assert repl == "/" + v;
    ReplaceHead(p, t, config);
    assert (n < |t| ==> t[n] != ':') && NoColonAfterPlaceholder(rest);
    assert |rest| > 0 ==> rest[0] == t[n];
    WriteKeepsClear(p, t, v, rest);
    ResolveSplit(p + repl, rest, config);
    SubstituteHead(t, config);
    Associate(p, repl, Substitute(rest, config));
  }

  /** The step of ResolveSplit where t starts with a character that is copied. */
  lemma {:induction false} ResolveSplitChar(p: string, t: string, config: Record)
    requires CleanFor(t, config)
    requires NoColonAfterPlaceholder(t)
    requires forall k :: 0 <= k < |p| ==> !PlaceholderAt(p + t, k)
    requires t != [] && !PlaceholderAt(t, 0)
    ensures ReplaceEach(p + t, Matches(t), config) == p + Substitute(t, config)
    ensures forall k :: 0 <= k < |p + Substitute(t, config)| ==> !PlaceholderAt(p + Substitute(t, config), k)
    decreases |t|, 0
  {
    var p' := p + [t[0]];
    assert [t[0]] + t[1..] == t;
    Associate(p, [t[0]], t[1..]);
    forall k | 0 <= k < |p'| ensures !PlaceholderAt(p' + t[1..], k) {
      if k == |p| {
        assert PlaceholderAt(p + t, k) == PlaceholderAt(t, 0);
      }
    }
    ResolveSplit(p', t[1..], config);
    assert Substitute(t, config) == [t[0]] + Substitute(t[1..], config);
    Associate(p, [t[0]], Substitute(t[1..], config));
  }

  lemma Associate(x: string, y: string, z: string)
    ensures x + (y + z) == x + y + z
  {
  }

  /** When no substituted value holds `/`, `:` or `$` and no placeholder is
      directly followed by `:`, transformUrl rewrites each placeholder in
      place, exactly as the one-pass scan does, and no placeholder is left. */
  lemma ResolveSubstitutes(url: string, config: Record)
    requires CleanFor(url, config)
    requires NoColonAfterPlaceholder(url)
    ensures Resolve(url, config) == Substitute(url, config)
    ensures Matches(Resolve(url, config)) == []
  {
    assert [] + url == url;
    ResolveSplit([], url, config);
    assert [] + Substitute(url, config) == Substitute(url, config);
    NoMatchIff(Resolve(url, config));
  }

  /** A resolved url is a fixed point: resolving it again, against any
      config, changes nothing. */
  lemma ResolveOnce(url: string, first: Record, later: Record)
    requires CleanFor(url, first)
    requires NoColonAfterPlaceholder(url)
    ensures Resolve(Resolve(url, first), later) == Resolve(url, first)
  {
    ResolveSubstitutes(url, first);
  }

  /** A colon that has no `/` before it, or no name start after it (a port
      number), is never rewritten: such a url resolves to itself. */
  lemma ColonsOutsidePlaceholdersUntouched(url: string, config: Record)
    requires forall k :: 1 <= k < |url| && url[k] == ':' ==>
      url[k - 1] != '/' || k + 1 == |url| || !IsNameStart(url[k + 1])
    ensures Resolve(url, config) == url
  {
    NoMatchIff(url);
  }

  /** A prefix in which no placeholder starts adds no match. */
  lemma {:induction false} QuietPrefix(p: string, t: string)
    requires forall k :: 0 <= k < |p| ==> !PlaceholderAt(p + t, k)
    ensures Matches(p + t) == Matches(t)
    decreases |p|
  {
    if p == [] {
      assert p + t == t;
    } else {
      assert !PlaceholderAt(p + t, 0);
      assert (p + t)[1..] == p[1..] + t;
      forall k | 0 <= k < |p[1..]| ensures !PlaceholderAt(p[1..] + t, k) {
        assert PlaceholderAt(p + t, k + 1) == PlaceholderAt(p[1..] + t, k);
      }
      QuietPrefix(p[1..], t);
    }
  }

  /** Text in front of the placeholders in which no placeholder starts, such
      as a scheme, host and port `http://h:8080`, is kept as it is, colons
      included, while the rest resolves as the one-pass scan writes it. */
  lemma ResolveAfterQuietPrefix(p: string, t: string, config: Record)
    requires forall k :: 0 <= k < |p| ==> !PlaceholderAt(p + t, k)
    requires CleanFor(t, config) && NoColonAfterPlaceholder(t)
    ensures Resolve(p + t, config) == p + Substitute(t, config)
  {
    QuietPrefix(p, t);
    ResolveSplit(p, t, config);
  }

  // ---------------------------------------------------------------------
  // Tools for concrete templates.

  /** The first character of colon-free text followed by a non-colon
      cannot start a placeholder. */
  lemma PlainHead(a: string, b: string)
    requires a != [] && ':' !in a
    requires b == [] || b[0] != ':'
    ensures !PlaceholderAt(a + b, 0)
    ensures (a + b)[1..] == a[1..] + b && (a + b)[0] == a[0]
    ensures ':' !in a[1..]
  {
    if |a| >= 2 {
      assert (a + b)[1] == a[1];
    } else if b != [] {
      assert (a + b)[1] == b[0];
    }
  }

  /** Text without a colon, followed by anything that does not start with a
      colon, adds no placeholder and is copied as it is. */
  lemma {:induction false} PlainPrefix(a: string, b: string, config: Record)
    requires ':' !in a
    requires b == [] || b[0] != ':'
    ensures Matches(a + b) == Matches(b)
    ensures Substitute(a + b, config) == a + Substitute(b, config)
    ensures NoColonAfterPlaceholder(a + b) == NoColonAfterPlaceholder(b)
    ensures CleanFor(a + b, config) == CleanFor(b, config)
    decreases |a|
  {
    if a == [] {
      assert a + b == b;
    } else {
      PlainHead(a, b);
      PlainPrefix(a[1..], b, config);
      PlainStep(a, b, config);
    }
  }

  lemma PlainStep(a: string, b: string, config: Record)
    requires a != [] && !PlaceholderAt(a + b, 0)
    requires (a + b)[1..] == a[1..] + b
    requires Substitute(a[1..] + b, config) == a[1..] + Substitute(b, config)
    ensures Matches(a + b) == Matches(a[1..] + b)
    ensures Substitute(a + b, config) == a + Substitute(b, config)
    ensures NoColonAfterPlaceholder(a + b) == NoColonAfterPlaceholder(a[1..] + b)
    ensures CleanFor(a + b, config) == CleanFor(a[1..] + b, config)
  {
    assert Substitute(a + b, config) == [a[0]] + Substitute(a[1..] + b, config);
    assert [a[0]] + (a[1..] + Substitute(b, config)) == a + Substitute(b, config);
  }

  /** A url without any colon has no placeholder. */
  lemma NoColonNoPlaceholder(s: string, config: Record)
    requires ':' !in s
    ensures Matches(s) == [] && NoColonAfterPlaceholder(s) && Substitute(s, config) == s
    ensures CleanFor(s, config)
  {
    PlainPrefix(s, [], config);
    assert s + [] == s;
  }

  /** The name run of a name followed by a non-name character is the name. */
  lemma {:induction false} NameRunSplit(x: string, y: string)
    requires forall i :: 0 <= i < |x| ==> IsNameChar(x[i])
    requires y == [] || !IsNameChar(y[0])
    ensures NameRun(x + y) == |x|
    decreases |x|
  {
    if x == [] {
      assert x + y == y;
    } else {
      assert (x + y)[0] == x[0];
      assert (x + y)[1..] == x[1..] + y;
      NameRunSplit(x[1..], y);
    }
  }

  /** `/:name` followed by a non-name character: the match is exactly `/:name`. */
  lemma NamedMatch(name: string, b: string)
    requires |name| > 0 && IsNameStart(name[0])
    requires forall i :: 0 <= i < |name| ==> IsNameChar(name[i])
    requires b == [] || !IsNameChar(b[0])
    ensures PlaceholderAt("/:" + name + b, 0)
    ensures MatchLength("/:" + name + b) == |name| + 2
    ensures ("/:" + name + b)[..|name| + 2] == "/:" + name
    ensures ("/:" + name + b)[|name| + 2..] == b
  {
    var u := "/:" + name + b;
    assert u[2] == name[0];
    assert u[3..] == name[1..] + b;
    NameRunSplit(name[1..], b);
  }

  /** A placeholder followed by colon-free text. */
  lemma LonePlaceholder(name: string, b: string, config: Record)
    requires ':' !in b
    requires |name| > 0 && IsNameStart(name[0])
    requires forall i :: 0 <= i < |name| ==> IsNameChar(name[i])
    requires b == [] || !IsNameChar(b[0])
    ensures Matches("/:" + name + b) == ["/:" + name]
    ensures Substitute("/:" + name + b, config) == "/" + Lookup(config, name) + b
    ensures NoColonAfterPlaceholder("/:" + name + b)
    ensures CleanFor("/:" + name + b, config) == Clean(Lookup(config, name))
  {
    var u := "/:" + name + b;
    NamedMatch(name, b);
    assert ("/:" + name)[2..] == name;
    NoColonNoPlaceholder(b, config);
    MatchesHead(u);
    SubstituteHead(u, config);
  }

  /** A template with exactly one placeholder `/:name` between colon-free
      texts: the pattern finds just that placeholder, and the value of name
      takes its place. */
  lemma OnePlaceholder(a: string, name: string, b: string, config: Record)
    requires ':' !in a && ':' !in b
    requires |name| > 0 && IsNameStart(name[0])
    requires forall i :: 0 <= i < |name| ==> IsNameChar(name[i])
    requires b == [] || !IsNameChar(b[0])
    ensures Matches(a + "/:" + name + b) == ["/:" + name]
    ensures Substitute(a + "/:" + name + b, config) == a + "/" + Lookup(config, name) + b
    ensures NoColonAfterPlaceholder(a + "/:" + name + b)
    ensures CleanFor(a + "/:" + name + b, config) == Clean(Lookup(config, name))
  {
    var u := "/:" + name + b;
    Regroup(a, "/:", name, b);
    assert u[0] == '/';
    PlainPrefix(a, u, config);
    LonePlaceholder(name, b, config);
    Regroup(a, "/", Lookup(config, name), b);
  }

  /** transformUrl on a template with one placeholder between colon-free
      texts, when the value of its key is clean: the placeholder becomes `/`
      plus that value, and nothing is left to resolve. */
  lemma OnePlaceholderResolves(a: string, name: string, b: string, config: Record)
    requires Clean(Lookup(config, name))
    requires ':' !in a && ':' !in b
    requires |name| > 0 && IsNameStart(name[0])
    requires forall i :: 0 <= i < |name| ==> IsNameChar(name[i])
    requires b == [] || !IsNameChar(b[0])
    ensures Resolve(a + "/:" + name + b, config) == a + "/" + Lookup(config, name) + b
    ensures Matches(a + "/" + Lookup(config, name) + b) == []
  {
    OnePlaceholder(a, name, b, config);
    ResolveSubstitutes(a + "/:" + name + b, config);
  }

  /** No `/` in p is directly followed by `:`; colons of a scheme or a port
      (`http://h:8080`) qualify. */
  predicate NoSlashColon(p: string)
  {
    forall k :: 0 <= k < |p| - 1 ==> p[k] != '/' || p[k + 1] != ':'
  }

  lemma QuietWhenNoSlashColon(p: string, t: string)
    requires NoSlashColon(p)
    requires t == [] || t[0] != ':'
    ensures forall k :: 0 <= k < |p| ==> !PlaceholderAt(p + t, k)
  {
    forall k | 0 <= k < |p| ensures !PlaceholderAt(p + t, k) {
      if k + 1 < |p| {
        assert (p + t)[k] == p[k] && (p + t)[k + 1] == p[k + 1];
      } else if k + 1 < |p + t| {
        assert (p + t)[k + 1] == t[0];
      }
    }
  }

  /** Colons in front of a placeholder that no `/` precedes, such as the
      port of `http://h:8080/:id`, survive while the placeholder is filled. */
  lemma PortsKept(p: string, name: string, b: string, config: Record)
    requires NoSlashColon(p) && ':' !in b
    requires |name| > 0 && IsNameStart(name[0])
    requires forall i :: 0 <= i < |name| ==> IsNameChar(name[i])
    requires b == [] || !IsNameChar(b[0])
    requires Clean(Lookup(config, name))
    ensures Resolve(p + ("/:" + name + b), config) == p + ("/" + Lookup(config, name) + b)
  {
    var t := "/:" + name + b;
    LonePlaceholder(name, b, config);
    QuietWhenNoSlashColon(p, t);
    ResolveAfterQuietPrefix(p, t, config);
  }

  /** An absolute url with a port meets the condition. */
  lemma HostAndPort()
    ensures NoSlashColon("http://h:8080")
  {
  }

  lemma Regroup(w: string, x: string, y: string, z: string)
    ensures w + x + y + z == w + (x + y + z)
  {
  }

  // ---------------------------------------------------------------------
  // Prefixes survive resolution.

  /** A leading segment such as `/chat`: a slash, no colon after it, and no
      further slash. */
  predicate SafePrefix(prefix: string)
  {
    |prefix| >= 2 && prefix[0] == '/' && prefix[1] != ':' &&
    forall i :: 1 <= i < |prefix| ==> prefix[i] != '/'
  }

  lemma ReplaceFirstKeepsPrefix(s: string, pat: string, repl: string, prefix: string)
    requires SafePrefix(prefix) && StartsWith(s, prefix)
    requires |pat| >= 2 && pat[0] == '/' && pat[1] == ':'
    ensures StartsWith(ReplaceFirst(s, pat, repl), prefix)
  {
    var idx := IndexOf(s, pat);
    if idx.Some? {
      var i := idx.value;
      assert s[i..i + |pat|][0] == s[i] && s[i..i + |pat|][1] == s[i + 1];
      assert forall j :: 0 <= j < |prefix| ==> s[j] == prefix[j];
      assert |prefix| <= i;
      var out := s[..i] + Expand(repl, pat, s[..i], s[i + |pat|..]) + s[i + |pat|..];
      assert out[..|prefix|] == s[..i][..|prefix|];
    }
  }

  lemma {:induction false} ReplaceEachKeepsPrefix(s: string, ms: seq<string>, config: Record, prefix: string)
    requires SafePrefix(prefix) && StartsWith(s, prefix)
    requires forall i :: 0 <= i < |ms| ==> IsPlaceholder(ms[i])
    ensures StartsWith(ReplaceEach(s, ms, config), prefix)
    decreases |ms|
  {
    if ms != [] {
      ReplaceFirstKeepsPrefix(s, ms[0], Replacement(config, ms[0]), prefix);
      ReplaceEachKeepsPrefix(ReplaceFirst(s, ms[0], Replacement(config, ms[0])), ms[1..], config, prefix);
    }
  }

  /** Resolution keeps a leading segment like `/chat` whatever the config. */
  lemma ResolveKeepsPrefix(url: string, config: Record, prefix: string)
    requires SafePrefix(prefix) && StartsWith(url, prefix)
    ensures StartsWith(Resolve(url, config), prefix)
  {
    ReplaceEachKeepsPrefix(url, Matches(url), config, prefix);
  }
}
