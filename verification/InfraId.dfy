/** `generateInfraID` of controllers/imageclusterinstall_controller.go. */
module InfraId {

  const MAX_BASE := 21

  predicate IsAlphanumeric(c: char) {
    'A' <= c <= 'Z' || 'a' <= c <= 'z' || '0' <= c <= '9'
  }

  predicate IsAllowed(c: char) {
    IsAlphanumeric(c) || c == '-'
  }

  function Rewrite(c: char): char {
    if IsAllowed(c) then c else '-'
  }

  /** Every character that is neither alphanumeric nor a dash becomes a dash. */
  function ReplaceOthers(s: string): (r: string)
    ensures |r| == |s| && forall i :: 0 <= i < |s| ==> r[i] == Rewrite(s[i])
  {
    seq(|s|, i requires 0 <= i < |s| => Rewrite(s[i]))
  }

  /** Length of the run of dashes at the front. */
  function DashRun(s: string): (n: nat)
    ensures n <= |s| && (forall i :: 0 <= i < n ==> s[i] == '-') && (n < |s| ==> s[n] != '-')
  {
    if s == "" || s[0] != '-' then 0 else 1 + DashRun(s[1..])
  }

  /** Every maximal run of two or more dashes becomes one dash. */
  function CollapseRuns(s: string): string
    decreases |s|
  {
    if s == "" then ""
    else if DashRun(s) >= 2 then "-" + CollapseRuns(s[DashRun(s)..])
    else [s[0]] + CollapseRuns(s[1..])
  }

  function TrimDashes(s: string): (r: string)
    ensures r <= s && (r != "" ==> r[|r| - 1] != '-')
    ensures forall i :: |r| <= i < |s| ==> s[i] == '-'
  {
    if s == "" || s[|s| - 1] != '-' then s else TrimDashes(s[..|s| - 1])
  }

  function Truncate(s: string): string {
    if |s| > MAX_BASE then s[..MAX_BASE] else s
  }

  function Sanitize(base: string): string {
    TrimDashes(Truncate(CollapseRuns(ReplaceOthers(base))))
  }

  function Generate(base: string, suffix: string): (r: string)
    ensures |r| > |suffix|
  {
    Sanitize(base) + "-" + suffix
  }

  // ----------------------------------------------------------- properties

  ghost predicate NoDoubleDash(s: string) {
    forall i :: 0 <= i < |s| - 1 ==> !(s[i] == '-' && s[i + 1] == '-')
  }

  ghost predicate AllAllowed(s: string) {
    forall i :: 0 <= i < |s| ==> IsAllowed(s[i])
  }

  lemma {:induction false} CollapseAllowed(s: string)
    requires AllAllowed(s)
    ensures AllAllowed(CollapseRuns(s))
    decreases |s|
  {
    if s != "" {
      CollapseAllowed(if DashRun(s) >= 2 then s[DashRun(s)..] else s[1..]);
    }
  }

  lemma {:induction false} CollapseHead(s: string)
    ensures |CollapseRuns(s)| <= |s|
    ensures s != "" ==> CollapseRuns(s) != "" && CollapseRuns(s)[0] == s[0]
    decreases |s|
  {
    if s != "" {
      CollapseHead(if DashRun(s) >= 2 then s[DashRun(s)..] else s[1..]);
    }
  }

  lemma PrependKeepsSingleDashes(c: char, s: string)
    requires NoDoubleDash(s) && (c == '-' && s != "" ==> s[0] != '-')
    ensures NoDoubleDash([c] + s)
  {
  }

  lemma {:induction false} CollapseShape(s: string)
    ensures NoDoubleDash(CollapseRuns(s))
    decreases |s|
  {
    hide NoDoubleDash;
    if s != "" {
      var rest := if DashRun(s) >= 2 then s[DashRun(s)..] else s[1..];
      CollapseShape(rest);
      CollapseHead(rest);
      PrependKeepsSingleDashes(s[0], CollapseRuns(rest));
    } else {
      NoDashAtAll();
    }
  }

  lemma NoDashAtAll()
    ensures NoDoubleDash("")
  {
  }

  lemma {:induction false} CollapseKeeps(s: string)
    requires NoDoubleDash(s)
    ensures CollapseRuns(s) == s
  {
    if s != "" {
      assert DashRun(s) < 2;
      forall i | 0 <= i < |s[1..]| - 1 ensures !(s[1..][i] == '-' && s[1..][i + 1] == '-') {
        assert !(s[i + 1] == '-' && s[i + 2] == '-');
      }
      CollapseKeeps(s[1..]);
    }
  }

  ghost predicate IsClean(s: string) {
    && AllAllowed(s)
    && NoDoubleDash(s)
    && |s| <= MAX_BASE
    && (s != "" ==> s[|s| - 1] != '-')
  }

  lemma SanitizeIsClean(base: string)
    ensures IsClean(Sanitize(base))
  {
    CollapseShape(ReplaceOthers(base));
    CollapseAllowed(ReplaceOthers(base));
  }

  /** The sanitising part leaves a base alone exactly when nothing in it is objectionable. */
  lemma SanitizeFixpointIff(base: string)
    ensures Sanitize(base) == base <==> IsClean(base)
  {
    SanitizeIsClean(base);
    if IsClean(base) {
      assert ReplaceOthers(base) == base;
      CollapseKeeps(base);
      assert TrimDashes(base) == base;
    }
  }

  lemma SanitizeIdempotent(base: string)
    ensures Sanitize(Sanitize(base)) == Sanitize(base)
  {
    SanitizeIsClean(base);
    SanitizeFixpointIff(Sanitize(base));
  }

  /** The identifier fits its bound, uses only the allowed characters, and never has two dashes in a row. */
  lemma GeneratedShape(base: string, suffix: string)
    requires |suffix| == 5 && forall c :: c in suffix ==> IsAlphanumeric(c)
    ensures var r := Generate(base, suffix);
            && |r| <= 27
            && AllAllowed(r) && NoDoubleDash(r) && suffix == r[|r| - 5..]
  {
    SanitizeIsClean(base);
    var s := Sanitize(base);
    var r := s + "-" + suffix;
    assert forall i :: |s| < i < |r| ==> r[i] == suffix[i - |s| - 1] && suffix[i - |s| - 1] in suffix;
    assert r[|s|] == '-';
  }

  /** The letters and digits of a name, in order. */
  function Letters(s: string): string {
    if s == "" then "" else Letters(s[..|s| - 1]) + if IsAlphanumeric(s[|s| - 1]) then [s[|s| - 1]] else ""
  }

  lemma {:induction false} LettersConcat(a: string, b: string)
    ensures Letters(a + b) == Letters(a) + Letters(b)
  {
    if b == "" {
      assert a + b == a;
    } else {
      assert (a + b)[..|a + b| - 1] == a + b[..|b| - 1];
      LettersConcat(a, b[..|b| - 1]);
    }
  }

  lemma {:induction false} NoLetters(s: string)
    requires forall i :: 0 <= i < |s| ==> s[i] == '-'
    ensures Letters(s) == ""
  {
    if s != "" {
      NoLetters(s[..|s| - 1]);
    }
  }

  lemma {:induction false} ReplaceKeepsLetters(s: string)
    ensures Letters(ReplaceOthers(s)) == Letters(s)
  {
    if s != "" {
      var n := |s| - 1;
      assert ReplaceOthers(s)[..n] == ReplaceOthers(s[..n]);
      ReplaceKeepsLetters(s[..n]);
    }
  }

  lemma {:induction false} CollapseKeepsLetters(s: string)
    ensures Letters(CollapseRuns(s)) == Letters(s)
    decreases |s|
  {
    if s != "" {
      var n := if DashRun(s) >= 2 then DashRun(s) else 1;
      assert s == s[..n] + s[n..];
      LettersConcat(s[..n], s[n..]);
      LettersConcat([s[0]], CollapseRuns(s[n..]));
      CollapseKeepsLetters(s[n..]);
      if DashRun(s) >= 2 {
        NoLetters(s[..n]);
        NoLetters("-");
      } else {
        assert s[..1] == [s[0]];
      }
    }
  }

  lemma TrimKeepsLetters(s: string)
    ensures Letters(TrimDashes(s)) == Letters(s)
  {
    var r := TrimDashes(s);
    assert s == r + s[|r|..];
    LettersConcat(r, s[|r|..]);
    NoLetters(s[|r|..]);
  }

  /**
   Sanitising adds no letter or digit and reorders none. Nothing but dashes is lost as long as the collapsed name has
   no more than 21 characters; of a longer one, 20 or 21 characters stay.
   */
  lemma LettersSurvive(base: string)
    ensures Letters(Sanitize(base)) <= Letters(base)
    ensures |CollapseRuns(ReplaceOthers(base))| <= 21 ==> Letters(Sanitize(base)) == Letters(base)
    ensures |CollapseRuns(ReplaceOthers(base))| > 21 ==> 20 <= |Sanitize(base)| <= 21
  {
    var c := CollapseRuns(ReplaceOthers(base));
    ReplaceKeepsLetters(base);
    CollapseKeepsLetters(ReplaceOthers(base));
    CollapseShape(ReplaceOthers(base));
    TrimKeepsLetters(Truncate(c));
    if |c| > 21 {
      assert c == c[..21] + c[21..];
      LettersConcat(c[..21], c[21..]);
      assert !(c[19] == '-' && c[20] == '-');
    }
  }

  // ------------------------------------------------------------- the code

  method TrimRight(s: string) returns (r: string)
    ensures r == TrimDashes(s)
  {
    r := s;
    while r != "" && r[|r| - 1] == '-'
      invariant TrimDashes(r) == TrimDashes(s)
      decreases |r|
    {
      r := r[..|r| - 1];
    }
  }

  method GenerateInfraId(name: string, suffix: string) returns (id: string)
    ensures id == Generate(name, suffix)
  {
    var base := ReplaceOthers(name);
    base := CollapseRuns(base);
    if |base| > MAX_BASE {
      base := base[..MAX_BASE];
    }
    base := TrimRight(base);
    id := base + "-" + suffix;
  }

  // -------------------------------------------------------- single pass

  /** Appends one rewritten character unless it would make a second dash in a row. */
  function Emit(out: string, c: char): string {
    if Rewrite(c) == '-' && out != "" && out[|out| - 1] == '-' then out else out + [Rewrite(c)]
  }

  /** The same collapse, dropping a dash whenever another one follows it. */
  function Squeeze(s: string): string {
    if |s| <= 1 then s
    else if s[0] == '-' && s[1] == '-' then Squeeze(s[1..])
    else [s[0]] + Squeeze(s[1..])
  }

  lemma {:induction false} SqueezeSkips(s: string, n: nat)
    requires n < |s| && forall i :: 0 <= i <= n ==> s[i] == '-'
    ensures Squeeze(s) == Squeeze(s[n..])
  {
    if n > 0 {
      SqueezeSkips(s[1..], n - 1);
    }
  }

  lemma {:induction false} CollapseIsSqueeze(s: string)
    ensures CollapseRuns(s) == Squeeze(s)
    decreases |s|
  {
    if s != "" {
      var n := DashRun(s);
      if n >= 2 {
        CollapseIsSqueeze(s[n..]);
        SqueezeSkips(s, n - 1);
        assert s[n - 1..][1..] == s[n..];
      } else {
        CollapseIsSqueeze(s[1..]);
      }
    }
  }

  lemma {:induction false} SqueezeAppend(s: string, c: char)
    requires IsAllowed(c)
    ensures s != "" ==> Squeeze(s) != "" && Squeeze(s)[|Squeeze(s)| - 1] == s[|s| - 1]
    ensures Squeeze(s + [c]) == Emit(Squeeze(s), c)
  {
    if |s| == 1 {
      assert (s + [c])[1..] == [c];
    } else if |s| > 1 {
      assert (s + [c])[1..] == s[1..] + [c];
      SqueezeAppend(s[1..], c);
    }
  }

  /** One more character, collapsed at once. */
  lemma CollapseAppend(s: string, c: char)
    ensures CollapseRuns(s + [Rewrite(c)]) == Emit(CollapseRuns(s), c)
  {
    SqueezeAppend(s, Rewrite(c));
    CollapseIsSqueeze(s);
    CollapseIsSqueeze(s + [Rewrite(c)]);
  }

  /** One pass over the characters does what the two rewrites do one after the other. */
  method SinglePass(base: string) returns (out: string)
    ensures out == CollapseRuns(ReplaceOthers(base))
  {
    out := "";
    ghost var done := ReplaceOthers(base);
    for i := 0 to |base|
      invariant out == CollapseRuns(done[..i])
    {
      assert done[..i + 1] == done[..i] + [Rewrite(base[i])];
      CollapseAppend(done[..i], base[i]);
      out := Emit(out, base[i]);
    }
    assert done[..|base|] == done;
  }
}
