/**
  Name normalisation: trimming, the delegation tool name of a sub-agent, agent names, and the
  retriever tool name with its inverse.
*/
module Names {
  import opened Wrappers

  // ----- trimming

  /** The runes `strings.TrimSpace` removes: the Unicode White_Space characters. */
  predicate IsSpace(c: char) {
    || '\t' <= c <= '\r' || c == ' ' || c == '\U{0085}' || c == '\U{00A0}' || c == '\U{1680}'
    || '\U{2000}' <= c <= '\U{200A}' || c == '\U{2028}' || c == '\U{2029}' || c == '\U{202F}' || c == '\U{205F}' || c == '\U{3000}'
  }

  function DropLeft(s: string, cut: char -> bool): string {
    if s != [] && cut(s[0]) then DropLeft(s[1..], cut) else s
  }

  function DropRight(s: string, cut: char -> bool): string {
    if s != [] && cut(s[|s| - 1]) then DropRight(s[..|s| - 1], cut) else s
  }

  function Trim(s: string, cut: char -> bool): string {
    DropRight(DropLeft(s, cut), cut)
  }

  function TrimSpace(s: string): string {
    Trim(s, IsSpace)
  }

  lemma {:induction false} DropLeftStops(s: string, cut: char -> bool)
    ensures var r := DropLeft(s, cut); r == [] || !cut(r[0])
  {
    if s != [] && cut(s[0]) {
      DropLeftStops(s[1..], cut);
    }
  }

  lemma {:induction false} DropRightStops(s: string, cut: char -> bool)
    ensures var r := DropRight(s, cut); r == [] || (s != [] && r[0] == s[0] && !cut(r[|r| - 1]))
  {
    if s != [] && cut(s[|s| - 1]) {
      DropRightStops(s[..|s| - 1], cut);
    }
  }

  lemma TrimKeeps(s: string, cut: char -> bool)
    requires s == [] || (!cut(s[0]) && !cut(s[|s| - 1]))
    ensures Trim(s, cut) == s
  {
  }

  lemma TrimEnds(s: string, cut: char -> bool)
    ensures var r := Trim(s, cut); r == "" || (!cut(r[0]) && !cut(r[|r| - 1]))
  {
    DropLeftStops(s, cut);
    DropRightStops(DropLeft(s, cut), cut);
  }

  lemma {:induction false} DropLeftIsSuffix(s: string, cut: char -> bool) returns (i: nat)
    ensures i <= |s| && DropLeft(s, cut) == s[i..] && forall k :: 0 <= k < i ==> cut(s[k])
  {
    i := 0;
    if s != [] && cut(s[0]) {
      var j := DropLeftIsSuffix(s[1..], cut);
      i := j + 1;
      forall k | 0 <= k < i ensures cut(s[k]) {
        assert k > 0 ==> s[k] == s[1..][k - 1];
      }
    }
  }

  lemma {:induction false} DropRightIsPrefix(s: string, cut: char -> bool) returns (j: nat)
    ensures j <= |s| && DropRight(s, cut) == s[..j] && forall k :: j <= k < |s| ==> cut(s[k])
  {
    j := |s|;
    if s != [] && cut(s[|s| - 1]) {
      var front := s[..|s| - 1];
      j := DropRightIsPrefix(front, cut);
      forall k | j <= k < |s| ensures cut(s[k]) {
        assert k < |front| ==> s[k] == front[k];
      }
    }
  }

  /** Trimming takes a piece out of the middle: all before and after it is cut, and neither end of it would be. */
  lemma TrimIsMiddle(s: string, cut: char -> bool) returns (i: nat, j: nat)
    ensures i <= j <= |s| && Trim(s, cut) == s[i..j]
    ensures forall k :: 0 <= k < i || j <= k < |s| ==> cut(s[k])
    ensures i < j ==> !cut(s[i]) && !cut(s[j - 1])
  {
    i := DropLeftIsSuffix(s, cut);
    var n := DropRightIsPrefix(s[i..], cut);
    j := i + n;
    TrimEnds(s, cut);
    forall k | j <= k < |s| ensures cut(s[k]) {
      assert s[k] == s[i..][k - i];
    }
  }

  // ----- sub-agent tool names

  const SUBAGENT_PREFIX := "subagent_"

  predicate IsAlnum(c: char) {
    'a' <= c <= 'z' || 'A' <= c <= 'Z' || '0' <= c <= '9'
  }

  predicate IsUnderscore(c: char) {
    c == '_'
  }

  /** Every maximal run of characters outside [a-zA-Z0-9] becomes one underscore. */
  function ReplaceRuns(s: string): string {
    if s == [] then []
    else if IsAlnum(s[0]) then [s[0]] + ReplaceRuns(s[1..])
    else if |s| > 1 && !IsAlnum(s[1]) then ReplaceRuns(s[1..])
    else ['_'] + ReplaceRuns(s[1..])
  }

  /** The delegation tool name of a sub-agent's display name; None stands for ErrSubAgentNameInvalid. */
  function SubAgentToolName(name: string): Option<string> {
    var base := TrimSpace(name);
    if base == "" then None
    else
      var safe := Trim(ReplaceRuns(base), IsUnderscore);
      if safe == "" then None else Some(SUBAGENT_PREFIX + safe)
  }

  /** The maximal alphanumeric runs of a name, in order. */
  function Runs(s: string): (r: seq<string>)
    ensures s != [] && IsAlnum(s[0]) ==> r != []
  {
    if s == [] then []
    else
      var rest := Runs(s[1..]);
      if !IsAlnum(s[0]) then rest
      else if |s| > 1 && IsAlnum(s[1]) then [[s[0]] + rest[0]] + rest[1..]
      else [[s[0]]] + rest
  }

  function JoinRuns(rs: seq<string>): string {
    if rs == [] then [] else if |rs| == 1 then rs[0] else rs[0] + ['_'] + JoinRuns(rs[1..])
  }

  predicate Alphanumeric(s: string) {
    forall k :: 0 <= k < |s| ==> IsAlnum(s[k])
  }

  predicate AreRuns(rs: seq<string>) {
    forall k :: 0 <= k < |rs| ==> rs[k] != [] && Alphanumeric(rs[k])
  }

  lemma {:induction false} RunsAreRuns(s: string)
    ensures AreRuns(Runs(s))
  {
    if s != [] {
      RunsAreRuns(s[1..]);
    }
  }

  /** Splitting undoes joining. */
  lemma {:induction false} RunsOfJoin(rs: seq<string>)
    requires AreRuns(rs)
    ensures Runs(JoinRuns(rs)) == rs
    decreases |rs|
  {
    if |rs| == 1 {
      RunBefore(rs[0], []);
      assert rs[0] + [] == rs[0];
    } else if |rs| > 1 {
      var rest := rs[1..];
      RunsOfJoin(rest);
      RunsAfterSeparator(JoinRuns(rest));
      RunBefore(rs[0], ['_'] + JoinRuns(rest));
      assert JoinRuns(rs) == rs[0] + (['_'] + JoinRuns(rest));
      assert rs == [rs[0]] + rest;
    }
  }

  lemma RunsAfterSeparator(s: string)
    ensures Runs(['_'] + s) == Runs(s)
  {
    assert (['_'] + s)[1..] == s;
  }

  /** A non-empty alphanumeric word followed by nothing or a separator is the first run. */
  lemma {:induction false} RunBefore(w: string, tail: string)
    requires w != [] && Alphanumeric(w) && (tail == [] || !IsAlnum(tail[0]))
    ensures Runs(w + tail) == [w] + Runs(tail)
  {
    assert (w + tail)[1..] == w[1..] + tail;
    if |w| == 1 {
      assert w[1..] + tail == tail;
      assert w == [w[0]];
    } else {
      RunBefore(w[1..], tail);
      assert [w[0]] + w[1..] == w;
    }
  }

  lemma {:induction false} RunsDropLeft(s: string, cut: char -> bool)
    requires forall c :: cut(c) ==> !IsAlnum(c)
    ensures Runs(DropLeft(s, cut)) == Runs(s)
  {
    if s != [] && cut(s[0]) {
      RunsDropLeft(s[1..], cut);
    }
  }

  lemma {:induction false} RunsAppendSeparator(s: string, c: char)
    requires !IsAlnum(c)
    ensures Runs(s + [c]) == Runs(s)
  {
    if s == [] {
      assert Runs([c]) == Runs([c][1..]);
    } else {
      assert (s + [c])[1..] == s[1..] + [c];
      RunsAppendSeparator(s[1..], c);
    }
  }

  lemma {:induction false} RunsDropRight(s: string, cut: char -> bool)
    requires forall c :: cut(c) ==> !IsAlnum(c)
    ensures Runs(DropRight(s, cut)) == Runs(s)
  {
    if s != [] && cut(s[|s| - 1]) {
      RunsDropRight(s[..|s| - 1], cut);
      RunsAppendSeparator(s[..|s| - 1], s[|s| - 1]);
      assert s[..|s| - 1] + [s[|s| - 1]] == s;
    }
  }

  lemma RunsOfTrimmed(s: string)
    ensures Runs(TrimSpace(s)) == Runs(s)
  {
    RunsDropLeft(s, IsSpace);
    RunsDropRight(DropLeft(s, IsSpace), IsSpace);
  }

  /** Replacing separator runs by underscores gives the joined runs, perhaps with an underscore on either side. */
  predicate ReplacesToJoin(s: string) {
    if Runs(s) == [] then s == [] || (ReplaceRuns(s) == "_" && !IsAlnum(s[0]) && !IsAlnum(s[|s| - 1]))
    else s != [] && ReplaceRuns(s) == (if IsAlnum(s[0]) then [] else "_") + JoinRuns(Runs(s)) + (if IsAlnum(s[|s| - 1]) then [] else "_")
  }

  lemma ReplaceInsideRun(s: string)
    requires |s| > 1 && IsAlnum(s[0]) && IsAlnum(s[1]) && ReplacesToJoin(s[1..])
    ensures ReplacesToJoin(s)
  {
    JoinPrepend(s[0], Runs(s[1..]));
  }

  lemma ReplaceAtRunEnd(s: string)
    requires |s| > 1 && IsAlnum(s[0]) && !IsAlnum(s[1]) && ReplacesToJoin(s[1..])
    ensures ReplacesToJoin(s)
  {
    var rest := Runs(s[1..]);
    assert Runs(s) == [[s[0]]] + rest && Runs(s)[1..] == rest;
    assert JoinRuns(Runs(s)) == [s[0]] + if rest == [] then [] else ['_'] + JoinRuns(rest);
  }

  lemma ReplaceSeparator(s: string)
    requires |s| > 1 && !IsAlnum(s[0]) && ReplacesToJoin(s[1..])
    ensures ReplacesToJoin(s)
  {
    assert Runs(s) == Runs(s[1..]);
  }

  lemma {:induction false} ReplaceIsJoin(s: string)
    ensures ReplacesToJoin(s)
  {
    if |s| == 1 {
      assert s[1..] == [];
      assert s == [s[0]];
    } else if |s| > 1 {
      ReplaceIsJoin(s[1..]);
      if IsAlnum(s[0]) && IsAlnum(s[1]) {
        ReplaceInsideRun(s);
      } else if IsAlnum(s[0]) {
        ReplaceAtRunEnd(s);
      } else {
        ReplaceSeparator(s);
      }
    }
  }

  lemma JoinPrepend(c: char, rs: seq<string>)
    requires rs != []
    ensures JoinRuns([[c] + rs[0]] + rs[1..]) == [c] + JoinRuns(rs)
  {
    var longer := [[c] + rs[0]] + rs[1..];
    assert longer[1..] == rs[1..];
  }

  lemma {:induction false} JoinEnds(rs: seq<string>)
    requires AreRuns(rs) && rs != []
    ensures var j := JoinRuns(rs); j != [] && IsAlnum(j[0]) && IsAlnum(j[|j| - 1])
    decreases |rs|
  {
    if |rs| > 1 {
      JoinEnds(rs[1..]);
    }
  }

  lemma DropLeftReplaced(left: string, rest: string)
    requires left == [] || left == "_"
    requires rest != [] && IsAlnum(rest[0])
    ensures DropLeft(left + rest, IsUnderscore) == rest
  {
    if left == "_" {
      assert (left + rest)[1..] == rest;
    } else {
      assert left + rest == rest;
    }
  }

  lemma DropRightReplaced(rest: string, right: string)
    requires right == [] || right == "_"
    requires rest != [] && IsAlnum(rest[|rest| - 1])
    ensures DropRight(rest + right, IsUnderscore) == rest
  {
    if right == "_" {
      assert (rest + right)[..|rest|] == rest;
    } else {
      assert rest + right == rest;
    }
  }

  lemma TrimReplaced(left: string, mid: string, right: string)
    requires left == [] || left == "_"
    requires right == [] || right == "_"
    requires mid != [] && IsAlnum(mid[0]) && IsAlnum(mid[|mid| - 1])
    ensures Trim(left + mid + right, IsUnderscore) == mid
  {
    assert left + mid + right == left + (mid + right);
    DropLeftReplaced(left, mid + right);
    DropRightReplaced(mid, right);
  }

  lemma TrimUnderscore()
    ensures Trim("_", IsUnderscore) == ""
  {
    assert "_"[1..] == "";
    assert DropLeft("_", IsUnderscore) == DropLeft("", IsUnderscore);
  }

  /**
    The tool name is a canonical form: it is the prefix followed by the name's alphanumeric runs
    joined by single underscores, and it fails exactly when there are no runs.
  */
  lemma ToolNameIsJoinedRuns(name: string)
    ensures SubAgentToolName(name) == if Runs(name) == [] then None else Some(SUBAGENT_PREFIX + JoinRuns(Runs(name)))
  {
    var base := TrimSpace(name);
    RunsOfTrimmed(name);
    ReplaceIsJoin(base);
    if Runs(base) == [] {
      TrimUnderscore();
    } else {
      RunsAreRuns(base);
      JoinEnds(Runs(base));
      TrimReplaced(if IsAlnum(base[0]) then [] else "_", JoinRuns(Runs(base)), if IsAlnum(base[|base| - 1]) then [] else "_");
    }
  }

  lemma {:induction false} JoinedCharacters(rs: seq<string>, k: nat)
    requires AreRuns(rs) && k < |JoinRuns(rs)|
    ensures var c := JoinRuns(rs)[k]; IsAlnum(c) || c == '_'
  {
    if |rs| > 1 && k > |rs[0]| {
      JoinedCharacters(rs[1..], k - |rs[0]| - 1);
    }
  }

  /** A tool name is "subagent_" and then only ASCII letters, digits and underscores, with a letter or digit at both ends. */
  lemma ToolNameCharacters(name: string)
    requires SubAgentToolName(name).Some?
    ensures var t := SubAgentToolName(name).value;
      && "subagent_" <= t && |t| > 9 && t[9] != '_' && t[|t| - 1] != '_'
      && (forall k :: 9 <= k < |t| ==> 'a' <= t[k] <= 'z' || 'A' <= t[k] <= 'Z' || '0' <= t[k] <= '9' || t[k] == '_')
  {
    ToolNameIsJoinedRuns(name);
    RunsAreRuns(name);
    var body := JoinRuns(Runs(name));
    JoinEnds(Runs(name));
    forall k | 0 <= k < |body| ensures IsAlnum(body[k]) || body[k] == '_' {
      JoinedCharacters(Runs(name), k);
    }
    var t := SubAgentToolName(name).value;
    assert t == "subagent_" + body;
    assert forall k :: 9 <= k < |t| ==> t[k] == body[k - 9];
  }

  lemma {:induction false} RunsIffAlnum(s: string)
    ensures Runs(s) != [] <==> exists k :: 0 <= k < |s| && IsAlnum(s[k])
  {
    if s != [] {
      RunsIffAlnum(s[1..]);
      if k :| 0 <= k < |s[1..]| && IsAlnum(s[1..][k]) {
        assert IsAlnum(s[k + 1]);
      }
      if k :| 0 <= k < |s| && IsAlnum(s[k]) && k > 0 {
        assert IsAlnum(s[1..][k - 1]);
      }
    }
  }

  /** A name has a tool name exactly when some character of it is an ASCII letter or digit. */
  lemma ToolNameIffAlnum(name: string)
    ensures SubAgentToolName(name).Some? <==>
      exists k :: 0 <= k < |name| && ('a' <= name[k] <= 'z' || 'A' <= name[k] <= 'Z' || '0' <= name[k] <= '9')
  {
    ToolNameIsJoinedRuns(name);
    RunsIffAlnum(name);
    if k :| 0 <= k < |name| && ('a' <= name[k] <= 'z' || 'A' <= name[k] <= 'Z' || '0' <= name[k] <= '9') {
      assert IsAlnum(name[k]);
    }
  }

  /** Two names get the same tool name exactly when they have the same alphanumeric runs. */
  lemma ToolNamesAgreeIff(a: string, b: string)
    ensures SubAgentToolName(a) == SubAgentToolName(b) <==> Runs(a) == Runs(b)
  {
    ToolNameIsJoinedRuns(a);
    ToolNameIsJoinedRuns(b);
    RunsAreRuns(a);
    RunsAreRuns(b);
    RunsOfJoin(Runs(a));
    RunsOfJoin(Runs(b));
    if SubAgentToolName(a) == SubAgentToolName(b) && SubAgentToolName(a).Some? {
      var t := SubAgentToolName(a).value;
      assert t[|SUBAGENT_PREFIX|..] == JoinRuns(Runs(a)) == JoinRuns(Runs(b));
    }
  }

  /** Normalising the body of a tool name again gives the same tool name. */
  lemma ToolNameIdempotent(name: string)
    requires SubAgentToolName(name).Some?
    ensures SubAgentToolName(SubAgentToolName(name).value[|SUBAGENT_PREFIX|..]) == SubAgentToolName(name)
  {
    ToolNameIsJoinedRuns(name);
    RunsAreRuns(name);
    RunsOfJoin(Runs(name));
    var body := SubAgentToolName(name).value[|SUBAGENT_PREFIX|..];
    assert body == JoinRuns(Runs(name));
    ToolNamesAgreeIff(body, name);
  }

  // ----- agent names

  const MAX_AGENT_NAME_LEN: nat := 64

  /** What the sanitiser writes for one lower-cased rune. */
  function Kept(c: char): string {
    if c == ' ' || c == '\t' || c == '\n' || c == '\r' then "-"
    else if 'a' <= c <= 'z' || '0' <= c <= '9' || c == '-' || c == '_' then [c]
    else ""
  }

  function KeptAll(s: string): string {
    if s == [] then [] else KeptAll(s[..|s| - 1]) + Kept(s[|s| - 1])
  }

  predicate Sanitary(s: string) {
    forall k :: 0 <= k < |s| ==> 'a' <= s[k] <= 'z' || '0' <= s[k] <= '9' || s[k] == '-' || s[k] == '_'
  }

  function Prefix(s: string, n: nat): string {
    if |s| <= n then s else s[..n]
  }

  lemma {:induction false} KeptAllOfPrefix(s: string, k: nat)
    requires k <= |s|
    ensures |KeptAll(s[..k])| <= |KeptAll(s)| && KeptAll(s[..k]) == KeptAll(s)[..|KeptAll(s[..k])|]
    decreases |s|
  {
    if k < |s| {
      KeptAllOfPrefix(s[..|s| - 1], k);
      assert s[..|s| - 1][..k] == s[..k];
    } else {
      assert s[..k] == s;
    }
  }

  lemma {:induction false} KeptAllSanitary(s: string)
    ensures Sanitary(KeptAll(s))
    ensures Sanitary(s) ==> KeptAll(s) == s
  {
    if s != [] {
      var init, last := s[..|s| - 1], s[|s| - 1];
      KeptAllSanitary(init);
      assert s == init + [last];
      if Sanitary(s) {
        assert Sanitary(init) && Kept(last) == [last];
      }
    }
  }

  lemma KeptAllNext(s: string, i: nat)
    requires i < |s|
    ensures KeptAll(s[..i + 1]) == KeptAll(s[..i]) + Kept(s[i]) && |Kept(s[i])| <= 1
  {
    assert s[..i + 1][..i] == s[..i];
  }

  lemma {:induction false} KeptAllConcat(a: string, b: string)
    ensures KeptAll(a + b) == KeptAll(a) + KeptAll(b)
  {
    if b == [] {
      assert a + b == a;
    } else {
      assert (a + b)[..|a + b| - 1] == a + b[..|b| - 1];
      KeptAllConcat(a, b[..|b| - 1]);
    }
  }

  lemma KeptBetween(a: string, c: char, b: string)
    ensures KeptAll(a + [c] + b) == KeptAll(a) + Kept(c) + KeptAll(b)
  {
    KeptAllConcat(a + [c], b);
    KeptAllConcat(a, [c]);
    assert [c][..0] == [] && KeptAll([c]) == [] + Kept(c);
  }

  predicate IsBlank(c: char) {
    c == ' ' || c == '\t' || c == '\n' || c == '\r'
  }

  predicate IsAllowed(c: char) {
    'a' <= c <= 'z' || '0' <= c <= '9' || c == '-' || c == '_'
  }

  /** Character by character, wherever it stands: blanks become hyphens, the allowed characters stay, all others go. */
  lemma KeptCharacter(a: string, c: char, b: string)
    ensures IsBlank(c) ==> KeptAll(a + [c] + b) == KeptAll(a) + "-" + KeptAll(b)
    ensures IsAllowed(c) ==> KeptAll(a + [c] + b) == KeptAll(a) + [c] + KeptAll(b)
    ensures !IsBlank(c) && !IsAllowed(c) ==> KeptAll(a + [c] + b) == KeptAll(a) + KeptAll(b)
  {
    KeptBetween(a, c, b);
    assert KeptAll(a) + "" == KeptAll(a);
  }

  /** Lower-cased, blanks to hyphens, other characters dropped, at most 64 characters. */
  function Sanitized(name: string, lower: string -> string): string {
    if TrimSpace(name) == "" then "" else Prefix(KeptAll(lower(TrimSpace(name))), MAX_AGENT_NAME_LEN)
  }

  /** The sanitiser's loop; `lower` is Unicode lower-casing, about which nothing is assumed here. */
  method SanitizeName(name: string, lower: string -> string) returns (out: string)
    ensures out == Sanitized(name, lower)
  {
    var trimmed := TrimSpace(name);
    if trimmed == "" {
      return "";
    }
    out := WriteKept(lower(trimmed));
  }

  method WriteKept(runes: string) returns (b: string)
    ensures b == Prefix(KeptAll(runes), MAX_AGENT_NAME_LEN)
  {
    b := "";
    for i := 0 to |runes|
      invariant b == KeptAll(runes[..i]) && |b| < MAX_AGENT_NAME_LEN
    {
      KeptAllNext(runes, i);
      b := b + Kept(runes[i]);
      if |b| >= MAX_AGENT_NAME_LEN {
        KeptAllOfPrefix(runes, i + 1);
        return b;
      }
    }
    assert runes[..|runes|] == runes;
  }

  /** validateAgentName: the character and length rule. */
  method ValidateAgentName(name: string) returns (ok: bool)
    ensures ok <==> 0 < |name| <= 64 && forall k :: 0 <= k < |name| ==>
      'a' <= name[k] <= 'z' || 'A' <= name[k] <= 'Z' || '0' <= name[k] <= '9' || name[k] == '-' || name[k] == '_'
    ensures ok <==> ValidAgentName(name)
  {
    if name == "" || |name| > MAX_AGENT_NAME_LEN {
      return false;
    }
    for i := 0 to |name|
      invariant forall k :: 0 <= k < i ==> IsAlnum(name[k]) || name[k] == '-' || name[k] == '_'
    {
      if !(IsAlnum(name[i]) || name[i] == '-' || name[i] == '_') {
        return false;
      }
    }
    return true;
  }

  predicate ValidAgentName(name: string) {
    0 < |name| <= MAX_AGENT_NAME_LEN && forall k :: 0 <= k < |name| ==> IsAlnum(name[k]) || name[k] == '-' || name[k] == '_'
  }

  /** A sanitised name is empty or valid, and, lower-casing being the identity on it, sanitising again changes nothing. */
  lemma SanitizedIsValidAndStable(name: string, lower: string -> string)
    requires forall s :: Sanitary(s) ==> lower(s) == s
    ensures var out := Sanitized(name, lower);
      (out == "" || ValidAgentName(out)) && |out| <= 64 && Sanitized(out, lower) == out
  {
    var out := Sanitized(name, lower);
    KeptAllSanitary(lower(TrimSpace(name)));
    assert Sanitary(out);
    TrimKeeps(out, IsSpace);
    KeptAllSanitary(out);
  }

  // ----- retriever tool names

  const RETRIEVER_PREFIX := "retriever_"

  function RetrieverToolName(retriever: string): string {
    var name := TrimSpace(retriever);
    if name == "" then "" else RETRIEVER_PREFIX + name
  }

  function RetrieverNameFromToolName(tool: string): Option<string> {
    var t := TrimSpace(tool);
    if t == "" || !(RETRIEVER_PREFIX <= t) then None
    else
      var name := TrimSpace(t[|RETRIEVER_PREFIX|..]);
      if name == "" then None else Some(name)
  }

  /** Extracting the name from a retriever's tool name gives back the trimmed name, and fails exactly when that is empty. */
  lemma RetrieverNameRoundTrip(retriever: string)
    ensures RetrieverNameFromToolName(RetrieverToolName(retriever)) ==
      if TrimSpace(retriever) == "" then None else Some(TrimSpace(retriever))
    ensures TrimSpace(retriever) != "" ==> RetrieverToolName(retriever) == "retriever_" + TrimSpace(retriever)
  {
    var name := TrimSpace(retriever);
    if name != "" {
      var t := RETRIEVER_PREFIX + name;
      TrimEnds(retriever, IsSpace);
      TrimKeeps(name, IsSpace);
      TrimKeeps(t, IsSpace);
      assert t[|RETRIEVER_PREFIX|..] == name;
    }
  }
}
