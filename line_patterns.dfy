/** The two output patterns AVaRICE's metadata queries match against, written
    out as explicit predicates instead of a regular-expression engine.

    java.util.regex semantics that matter here:
    - `\w` is [A-Za-z0-9_], `\s` is [ \t\n\x0B\f\r];
    - `.` is any character except a line terminator (\n, \r, U+0085,
      U+2028, U+2029);
    - `Matcher.matches()` demands that the WHOLE line matches;
    - quantifiers are greedy with backtracking, which fixes which substring
      the capturing group returns when several decompositions exist. */
module LinePatterns {
  import opened Common

  datatype CharClass =
    | Word              // \w
    | Space             // \s
    | VersionChar       // [\w\.]
    | AnyButTerminator  // .

  predicate IsWordChar(c: char) {
    'a' <= c <= 'z' || 'A' <= c <= 'Z' || '0' <= c <= '9' || c == '_'
  }

  predicate InClass(c: char, k: CharClass) {
    match k
    case Word => IsWordChar(c)
    case Space => c == ' ' || c == '\t' || c == '\n' || c == '\U{B}' || c == '\U{C}' || c == '\r'
    case VersionChar => IsWordChar(c) || c == '.'
    case AnyButTerminator =>
      !(c == '\n' || c == '\r' || c == '\U{85}' || c == '\U{2028}' || c == '\U{2029}')
  }

  predicate AllIn(s: string, k: CharClass) {
    forall i :: 0 <= i < |s| ==> InClass(s[i], k)
  }

  /** The end of the longest run of class-k characters starting at `from`:
      what a greedy `k+` or `k*` consumes. */
  function Span(s: string, from: nat, k: CharClass): (end: nat)
    requires from <= |s|
    ensures from <= end <= |s|
    ensures AllIn(s[from..end], k)
    ensures end == |s| || !InClass(s[end], k)
    decreases |s| - from
  {
    if from < |s| && InClass(s[from], k) then
      var end := Span(s, from + 1, k);
      assert forall i :: 0 < i < end - from ==> s[from..end][i] == s[from + 1..end][i - 1];
      end
    else from
  }

  /** A run of class-k characters that stops at a character outside k (or at
      the end of s) is exactly the one Span finds. */
  lemma {:induction false} SpanIsMaximalRun(s: string, from: nat, k: CharClass, end: nat)
    requires from <= end <= |s|
    requires AllIn(s[from..end], k)
    requires end == |s| || !InClass(s[end], k)
    ensures Span(s, from, k) == end
    decreases end - from
  {
    if from < end {
      assert s[from] == s[from..end][0];
      assert s[from + 1..end] == s[from..end][1..];
      SpanIsMaximalRun(s, from + 1, k, end);
    }
  }

  /** Span reaches at least as far as any run of class-k characters. */
  lemma {:induction false} SpanCoversRun(s: string, from: nat, k: CharClass, end: nat)
    requires from <= end <= |s|
    requires AllIn(s[from..end], k)
    ensures end <= Span(s, from, k)
    decreases end - from
  {
    if from < end {
      assert s[from] == s[from..end][0];
      assert s[from + 1..end] == s[from..end][1..];
      SpanCoversRun(s, from + 1, k, end);
    }
  }

  // ---------------------------------------------------------------------------
  // `(\w+)\s+0x.+` -- one line of `avarice --known-devices`

  /** The line is `line[..k]` (one or more word characters), `line[k..j]`
      (one or more whitespace characters), "0x", and at least one further
      character, none of them a line terminator: a whole-line match of
      `(\w+)\s+0x.+` whose group is `line[..k]`. */
  predicate DeviceShape(line: string, k: nat, j: nat) {
    && 0 < k < j
    && j + 2 < |line|
    && AllIn(line[..k], Word)
    && AllIn(line[k..j], Space)
    && line[j] == '0' && line[j + 1] == 'x'
    && AllIn(line[j + 2..], AnyButTerminator)
  }

  /** Group 1 of `(\w+)\s+0x.+` when the whole line matches, else None. */
  function DeviceMatch(line: string): (r: Option<string>)
    ensures r.Some? ==> |r.value| > 0 && AllIn(r.value, Word)
  {
    var k := Span(line, 0, Word);
    var j := Span(line, k, Space);
    if DeviceShape(line, k, j) then Some(line[..k]) else None
  }

  /** DeviceMatch agrees with the pattern: it finds a device id exactly when
      some decomposition of the line matches, and the id is that
      decomposition's group (so the group is unique). */
  lemma DeviceMatchIsPattern(line: string)
    ensures DeviceMatch(line).Some? <==> exists k: nat, j: nat :: DeviceShape(line, k, j)
    ensures forall k: nat, j: nat :: DeviceShape(line, k, j) ==> DeviceMatch(line) == Some(line[..k])
  {
    forall k: nat, j: nat | DeviceShape(line, k, j)
      ensures DeviceMatch(line) == Some(line[..k])
    {
      assert line[k..j][0] == line[k];
      assert line[..k] == line[0..k];
      SpanIsMaximalRun(line, 0, Word, k);
      SpanIsMaximalRun(line, k, Space, j);
    }
    if DeviceMatch(line).Some? {
      var k := Span(line, 0, Word);
      var j := Span(line, k, Space);
      assert DeviceShape(line, k, j);
    }
  }

  // ---------------------------------------------------------------------------
  // `.*version\s+([\w\.]+).*` -- the banner printed by `avarice` without options

  /** A whole-line match of `.*version\s+([\w\.]+).*` in which the leading
      `.*` covers `line[..p]`, `\s+` covers `line[p + 7..q]` and the group
      covers `line[q..r]`. */
  predicate VersionShape(line: string, p: nat, q: nat, r: nat) {
    && p + 7 < q < r <= |line|
    && AllIn(line[..p], AnyButTerminator)
    && line[p..p + 7] == "version"
    && AllIn(line[p + 7..q], Space)
    && AllIn(line[q..r], VersionChar)
    && AllIn(line[r..], AnyButTerminator)
  }

  /** The match the regex engine finds once the leading `.*` has settled on
      `line[..p]`: `\s+` and the group are greedy, so both take the longest
      run available. */
  function VersionAt(line: string, p: nat): (r: Option<string>)
    requires p <= |line|
    ensures r.Some? ==>
      p + 7 <= |line| && line[p..p + 7] == "version" && |r.value| > 0 && AllIn(r.value, VersionChar)
  {
    if p + 7 <= |line| then
      var q := Span(line, p + 7, Space);
      var e := Span(line, q, VersionChar);
      if VersionShape(line, p, q, e) then Some(line[q..e]) else None
    else None
  }

  /** The greedy leading `.*` backs off one character at a time, from `p`
      down to 0, until the rest of the pattern matches. */
  function VersionFrom(line: string, p: nat): (r: Option<string>)
    requires p <= |line|
    ensures r.Some? ==> |r.value| > 0 && AllIn(r.value, VersionChar)
  {
    match VersionAt(line, p)
    case Some(g) => Some(g)
    case None => if p == 0 then None else VersionFrom(line, p - 1)
  }

  /** Group 1 of `.*version\s+([\w\.]+).*` when the whole line matches. */
  function VersionMatch(line: string): (r: Option<string>)
    ensures r.Some? ==> |r.value| > 0 && AllIn(r.value, VersionChar)
  {
    VersionFrom(line, |line|)
  }

  /** Once the leading `.*` is fixed at p, VersionAt finds a group exactly when
      the pattern matches there, and the group runs to the longest run of
      version characters. */
  lemma VersionAtIsPattern(line: string, p: nat)
    requires p <= |line|
    ensures VersionAt(line, p).Some? <==> exists q: nat, r: nat :: VersionShape(line, p, q, r)
    ensures VersionAt(line, p).Some? ==>
      exists q: nat, r: nat :: VersionShape(line, p, q, r) && VersionAt(line, p) == Some(line[q..r])
        && (r == |line| || !InClass(line[r], VersionChar))
  {
    if q: nat, r: nat :| VersionShape(line, p, q, r) {
      assert line[q..r][0] == line[q];
      SpanIsMaximalRun(line, p + 7, Space, q);
      SpanCoversRun(line, q, VersionChar, r);
      var e := Span(line, q, VersionChar);
      assert forall i :: 0 <= i < |line| - e ==> line[e..][i] == line[r..][i + e - r];
      assert VersionShape(line, p, q, e);
    }
  }

  /** VersionFrom(line, n) finds a group exactly when the pattern matches with
      the leading `.*` covering at most n characters, and then it is the group
      of the decomposition whose leading `.*` is longest. */
  lemma {:induction false} VersionFromIsPattern(line: string, n: nat)
    requires n <= |line|
    ensures VersionFrom(line, n).Some? <==>
      exists p: nat, q: nat, r: nat :: p <= n && VersionShape(line, p, q, r)
    ensures VersionFrom(line, n).Some? ==>
      exists p: nat, q: nat, r: nat :: p <= n && VersionShape(line, p, q, r)
        && VersionFrom(line, n) == Some(line[q..r])
        && (r == |line| || !InClass(line[r], VersionChar))
        && (forall p': nat, q': nat, r': nat :: p' <= n && VersionShape(line, p', q', r') ==> p' <= p)
    decreases n
  {
    VersionAtIsPattern(line, n);
    if VersionAt(line, n).None? && n > 0 {
      VersionFromIsPattern(line, n - 1);
      forall p': nat, q': nat, r': nat | p' <= n && VersionShape(line, p', q', r')
        ensures p' <= n - 1
      {
      }
    }
  }

  /** The version group of a line, in terms of the pattern alone: present
      exactly when the whole line matches, and then taken from the match
      whose leading `.*` is longest, with the longest run of version
      characters. */
  lemma VersionMatchIsPattern(line: string)
    ensures VersionMatch(line).Some? <==> exists p: nat, q: nat, r: nat :: VersionShape(line, p, q, r)
    ensures VersionMatch(line).Some? ==>
      exists p: nat, q: nat, r: nat :: VersionShape(line, p, q, r)
        && VersionMatch(line) == Some(line[q..r])
        && (r == |line| || !InClass(line[r], VersionChar))
        && (forall p': nat, q': nat, r': nat :: VersionShape(line, p', q', r') ==> p' <= p)
  {
    VersionFromIsPattern(line, |line|);
  }

  // ---------------------------------------------------------------------------
  // The lines the two queries are written for

  /** A `--known-devices` line "<id> <whitespace> 0x<anything>" yields <id>. */
  lemma DeviceLineParsed(id: string, ws: string, rest: string)
    requires |id| > 0 && AllIn(id, Word)
    requires |ws| > 0 && AllIn(ws, Space)
    requires |rest| > 0 && AllIn(rest, AnyButTerminator)
    ensures DeviceMatch(id + ws + "0x" + rest) == Some(id)
  {
    var line := id + ws + "0x" + rest;
    var k, j := |id|, |id| + |ws|;
    assert line[..k] == id && line[k..j] == ws && line[j + 2..] == rest;
    assert DeviceShape(line, k, j);
    DeviceMatchIsPattern(line);
  }

  /** t holds no "ve", so no "version" can start inside it. */
  predicate NoVersionStart(t: string) {
    forall i :: 0 <= i && i + 1 < |t| ==> !(t[i] == 'v' && t[i + 1] == 'e')
  }

  /** Where the pieces of pre + "version" + ws + g + post sit in the line. */
  lemma LinePieces(pre: string, ws: string, g: string, post: string)
    ensures var line := pre + "version" + ws + g + post;
      var p0, q0, r0 := |pre|, |pre| + 7 + |ws|, |pre| + 7 + |ws| + |g|;
      && |line| == r0 + |post|
      && line[..p0] == pre && line[p0..p0 + 7] == "version" && line[p0 + 7..q0] == ws
      && line[q0..r0] == g && line[r0..] == post && line[q0..] == g + post
  {
    var line := pre + "version" + ws + g + post;
    var p0, q0, r0 := |pre|, |pre| + 7 + |ws|, |pre| + 7 + |ws| + |g|;
    assert line == pre + ("version" + (ws + (g + post)));
  }

  /** No occurrence of "version" starts after the first character of the
      keyword at p0, when only whitespace and then a tail without "ve"
      follow it. */
  lemma KeywordOnlyAt(line: string, p0: nat, q0: nat, p: nat)
    requires p0 + 7 <= q0 <= |line|
    requires line[p0..p0 + 7] == "version" && AllIn(line[p0 + 7..q0], Space)
    requires NoVersionStart(line[q0..])
    requires p0 < p && p + 7 <= |line|
    ensures line[p..p + 7] != "version"
  {
    assert line[p] != 'v' || line[p + 1] != 'e' by {
      if p < p0 + 7 {
        assert line[p] == line[p0..p0 + 7][p - p0];
      } else if p < q0 {
        assert line[p] == line[p0 + 7..q0][p - p0 - 7];
      } else {
        assert line[p] == line[q0..][p - q0] && line[p + 1] == line[q0..][p + 1 - q0];
      }
    }
    assert line[p..p + 7][0] == line[p] && line[p..p + 7][1] == line[p + 1];
  }

  /** With the keyword fixed at p, the whitespace and the group of any match
      are the longest runs after it. */
  lemma GroupIsLongestRun(line: string, p: nat, q0: nat, r0: nat, q: nat, r: nat)
    requires VersionShape(line, p, q, r) && (r == |line| || !InClass(line[r], VersionChar))
    requires p + 7 < q0 < r0 <= |line|
    requires AllIn(line[p + 7..q0], Space) && !InClass(line[q0], Space)
    requires AllIn(line[q0..r0], VersionChar) && (r0 == |line| || !InClass(line[r0], VersionChar))
    ensures q == q0 && r == r0
  {
    assert line[q..r][0] == line[q];
    SpanIsMaximalRun(line, p + 7, Space, q);
    SpanIsMaximalRun(line, p + 7, Space, q0);
    SpanIsMaximalRun(line, q0, VersionChar, r);
    SpanIsMaximalRun(line, q0, VersionChar, r0);
  }

  /** A line made of a prefix, "version" at p0, whitespace up to q0, a
      version group up to r0 and a suffix that neither continues the group
      nor holds a later "version" yields that group. */
  lemma VersionLineAt(line: string, p0: nat, q0: nat, r0: nat)
    requires p0 + 7 < q0 < r0 <= |line|
    requires AllIn(line[..p0], AnyButTerminator) && line[p0..p0 + 7] == "version"
    requires AllIn(line[p0 + 7..q0], Space) && AllIn(line[q0..r0], VersionChar)
    requires AllIn(line[r0..], AnyButTerminator)
    requires r0 == |line| || !InClass(line[r0], VersionChar)
    requires NoVersionStart(line[q0..])
    ensures VersionMatch(line) == Some(line[q0..r0])
  {
    assert VersionShape(line, p0, q0, r0);
    VersionMatchIsPattern(line);
    var p: nat, q: nat, r: nat :| VersionShape(line, p, q, r)
        && VersionMatch(line) == Some(line[q..r])
        && (r == |line| || !InClass(line[r], VersionChar))
        && (forall p': nat, q': nat, r': nat :: VersionShape(line, p', q', r') ==> p' <= p);
    if p0 < p {
      KeywordOnlyAt(line, p0, q0, p);
    }
    assert line[q0] == line[q0..r0][0];
    GroupIsLongestRun(line, p0, q0, r0, q, r);
  }

  /** A banner "<prefix>version<whitespace><group><suffix>" yields <group>
      when the suffix does not continue the group and holds no later
      "version". */
  lemma VersionLineParsed(pre: string, ws: string, g: string, post: string)
    requires AllIn(pre, AnyButTerminator)
    requires |ws| > 0 && AllIn(ws, Space)
    requires |g| > 0 && AllIn(g, VersionChar)
    requires AllIn(post, AnyButTerminator) && (post == [] || !InClass(post[0], VersionChar))
    requires NoVersionStart(g + post)
    ensures VersionMatch(pre + "version" + ws + g + post) == Some(g)
  {
    var line := pre + "version" + ws + g + post;
    var p0, q0, r0 := |pre|, |pre| + 7 + |ws|, |pre| + 7 + |ws| + |g|;
    LinePieces(pre, ws, g, post);
    assert r0 < |line| ==> line[r0] == line[r0..][0];
    VersionLineAt(line, p0, q0, r0);
  }

  lemma BannerHead()
    ensures "AVaRICE " + "version" + " " + "2.8" == "AVaRICE version 2.8"
  {
  }

  lemma BannerLine()
    ensures "AVaRICE version 2.8" + ", Nov  7 2008 22:02:05" == "AVaRICE version 2.8, Nov  7 2008 22:02:05"
  {
  }

  /** The banner AVaRICE 2.8 prints, as prefix, keyword, whitespace,
      version and suffix. */
  lemma BannerPieces()
    ensures "AVaRICE " + "version" + " " + "2.8" + ", Nov  7 2008 22:02:05"
         == "AVaRICE version 2.8, Nov  7 2008 22:02:05"
  {
    BannerHead();
    BannerLine();
  }

  lemma BannerTail()
    ensures NoVersionStart("2.8" + ", Nov  7 2008 22:02:05")
    ensures AllIn(", Nov  7 2008 22:02:05", AnyButTerminator)
  {
  }

  /** The banner AVaRICE 2.8 prints. */
  lemma BannerVersion()
    ensures VersionMatch("AVaRICE version 2.8, Nov  7 2008 22:02:05") == Some("2.8")
  {
    BannerTail();
    VersionLineParsed("AVaRICE ", " ", "2.8", ", Nov  7 2008 22:02:05");
    BannerPieces();
  }
}
