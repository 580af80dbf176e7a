/** The deterministic text helpers of the price scraper (price_updater.py):
    model-name normalisation, price-text cleaning and parsing, header column
    search, and the category and model-type decision rules. */
module PriceUpdater {
  import opened Basics
  import Database

  // ------------------------------------------------------- name normalising

  /** Python's `\w` (restricted to ASCII) together with the CJK block
      U+4E00..U+9FFF that the normalising pattern names. */
  predicate IsWordChar(c: char)
  {
    IsAsciiLower(c) || IsAsciiUpper(c) || IsAsciiDigit(c) || c == '_' || ('\U{4E00}' <= c <= '\U{9FFF}')
  }

  /** `re.sub(r'[^\w一-鿿]', '-', s)`: every character outside the
      word class becomes '-'. */
  function ReplaceNonWord(s: string): (r: string)
    ensures |r| == |s|
    ensures forall i :: 0 <= i < |s| ==> r[i] == if IsWordChar(s[i]) then s[i] else '-'
  {
    if s == [] then [] else [if IsWordChar(s[0]) then s[0] else '-'] + ReplaceNonWord(s[1..])
  }

  predicate NoDoubleDash(s: string)
  {
    forall i :: 0 <= i < |s| - 1 ==> !(s[i] == '-' && s[i + 1] == '-')
  }

  /** The characters of `s` other than '-', in order. */
  function NonDash(s: string): string
  {
    if s == [] then [] else (if s[0] == '-' then [] else [s[0]]) + NonDash(s[1..])
  }

  lemma {:induction false} NonDashConcat(a: string, b: string)
    ensures NonDash(a + b) == NonDash(a) + NonDash(b)
  {
    if a == [] {
      assert a + b == b;
    } else {
      var head := if a[0] == '-' then [] else [a[0]];
      assert (a + b)[0] == a[0];
      assert (a + b)[1..] == a[1..] + b;
      NonDashConcat(a[1..], b);
      calc {
        NonDash(a + b);
        head + NonDash(a[1..] + b);
        head + (NonDash(a[1..]) + NonDash(b));
        (head + NonDash(a[1..])) + NonDash(b);
      }
    }
  }

  /** The word characters of `s`, in order. */
  function WordChars(s: string): string
  {
    if s == [] then [] else (if IsWordChar(s[0]) then [s[0]] else []) + WordChars(s[1..])
  }

  lemma {:induction false} NonDashOfReplaced(s: string)
    ensures NonDash(ReplaceNonWord(s)) == WordChars(s)
  {
    if s != [] {
      assert ReplaceNonWord(s)[1..] == ReplaceNonWord(s[1..]);
      NonDashOfReplaced(s[1..]);
    }
  }

  /** `re.sub(r'-+', '-', s)`: every run of '-' becomes a single '-'; nothing
      but dashes is removed. */
  function CollapseDashes(s: string): (r: string)
    ensures NoDoubleDash(r)
    ensures NonDash(r) == NonDash(s)
    ensures |s| > 0 ==> |r| > 0 && r[0] == s[0] && r[|r| - 1] == s[|s| - 1]
    ensures forall c :: c in r ==> c in s
  {
    if |s| <= 1 then s
    else if s[0] == '-' && s[1] == '-' then
      CollapseSkip(s);
      CollapseDashes(s[1..])
    else
      var rest := CollapseDashes(s[1..]);
      CollapseStep(s, rest);
      [s[0]] + rest
  }

  lemma CollapseSkip(s: string)
    requires |s| > 1 && s[0] == '-' && s[1] == '-'
    ensures NonDash(s) == NonDash(s[1..])
    ensures forall c :: c in s[1..] ==> c in s
  {
  }

  lemma CollapseStep(s: string, rest: string)
    requires |s| > 1 && !(s[0] == '-' && s[1] == '-')
    requires NoDoubleDash(rest) && NonDash(rest) == NonDash(s[1..])
    requires |rest| > 0 && rest[0] == s[1] && rest[|rest| - 1] == s[|s| - 1]
    requires forall c :: c in rest ==> c in s[1..]
    ensures NoDoubleDash([s[0]] + rest)
    ensures NonDash([s[0]] + rest) == NonDash(s)
    ensures forall c :: c in [s[0]] + rest ==> c in s
  {
    var r := [s[0]] + rest;
    assert r[1..] == rest;
    assert s == [s[0]] + s[1..];
    forall i | 0 <= i < |r| - 1 ensures !(r[i] == '-' && r[i + 1] == '-') {
      if i > 0 {
        assert r[i] == rest[i - 1] && r[i + 1] == rest[i];
      }
    }
  }

  /** A string without double dashes is left as it is by collapsing. */
  lemma {:induction false} CollapseDashesIdentity(s: string)
    requires NoDoubleDash(s)
    ensures CollapseDashes(s) == s
  {
    if |s| > 1 {
      CollapseDashesIdentity(s[1..]);
    }
  }

  /** `s` without its leading dashes. */
  function StripLeading(s: string): (r: string)
    ensures r == [] || r[0] != '-'
    ensures |r| <= |s| && r == s[|s| - |r|..]
    ensures NonDash(r) == NonDash(s)
  {
    if s != [] && s[0] == '-' then StripLeading(s[1..]) else s
  }

  /** `s` without its trailing dashes. */
  function StripTrailing(s: string): (r: string)
    ensures r == [] || r[|r| - 1] != '-'
    ensures |r| <= |s| && r == s[..|r|]
    ensures NonDash(r) == NonDash(s)
  {
    if s != [] && s[|s| - 1] == '-' then
      NonDashConcat(s[..|s| - 1], [s[|s| - 1]]);
      assert s[..|s| - 1] + [s[|s| - 1]] == s;
      StripTrailing(s[..|s| - 1])
    else s
  }

  /** Stripping leading dashes removes nothing but dashes. */
  lemma {:induction false} StripLeadingRemovesDashes(s: string)
    ensures forall i :: 0 <= i < |s| - |StripLeading(s)| ==> s[i] == '-'
  {
    if s != [] && s[0] == '-' {
      StripLeadingRemovesDashes(s[1..]);
      assert forall i :: 1 <= i < |s| ==> s[i] == s[1..][i - 1];
    }
  }

  /** Stripping trailing dashes removes nothing but dashes. */
  lemma {:induction false} StripTrailingRemovesDashes(s: string)
    ensures forall i :: |StripTrailing(s)| <= i < |s| ==> s[i] == '-'
  {
    if s != [] && s[|s| - 1] == '-' {
      StripTrailingRemovesDashes(s[..|s| - 1]);
    }
  }

  /** `s.strip('-')`: the longest inner part of `s` with no '-' at either
      end; only dashes are removed. */
  function StripDashes(s: string): (r: string)
    ensures r == [] || (r[0] != '-' && r[|r| - 1] != '-')
    ensures exists lo, hi :: 0 <= lo <= hi <= |s| && r == s[lo..hi]
                             && forall i :: 0 <= i < |s| && (i < lo || hi <= i) ==> s[i] == '-'
    ensures NonDash(r) == NonDash(s)
    ensures forall c :: c in r ==> c in s
    ensures NoDoubleDash(s) ==> NoDoubleDash(r)
  {
    StripSlice(s);
    StripKeepsSliceFacts(s);
    StripLeading(StripTrailing(s))
  }

  /** Stripping both ends keeps one slice of `s` and drops only dashes
      around it. */
  lemma StripSlice(s: string)
    ensures var r := StripLeading(StripTrailing(s));
            exists lo, hi :: 0 <= lo <= hi <= |s| && r == s[lo..hi]
                             && forall i :: 0 <= i < |s| && (i < lo || hi <= i) ==> s[i] == '-'
  {
    var t := StripTrailing(s);
    var r := StripLeading(t);
    StripTrailingRemovesDashes(s);
    StripLeadingRemovesDashes(t);
    SliceBetweenDashes(s, t, r);
  }

  /** Being a slice, the stripped text has only characters of `s` and no
      double dash that `s` lacks. */
  lemma StripKeepsSliceFacts(s: string)
    ensures var r := StripLeading(StripTrailing(s));
            && (forall c :: c in r ==> c in s)
            && (NoDoubleDash(s) ==> NoDoubleDash(r))
  {
    var t := StripTrailing(s);
    var r := StripLeading(t);
    StripTrailingRemovesDashes(s);
    StripLeadingRemovesDashes(t);
    SliceBetweenDashes(s, t, r);
  }

  /** A part `r` left after dropping dashes from the end of `s` (giving
      `t`) and then from the start of `t` is a slice of `s` with only dashes
      around it. */
  lemma SliceBetweenDashes(s: string, t: string, r: string)
    requires |t| <= |s| && t == s[..|t|] && forall i :: |t| <= i < |s| ==> s[i] == '-'
    requires |r| <= |t| && r == t[|t| - |r|..] && forall i :: 0 <= i < |t| - |r| ==> t[i] == '-'
    ensures exists lo, hi :: 0 <= lo <= hi <= |s| && r == s[lo..hi]
                             && forall i :: 0 <= i < |s| && (i < lo || hi <= i) ==> s[i] == '-'
    ensures forall c :: c in r ==> c in s
    ensures NoDoubleDash(s) ==> NoDoubleDash(r)
  {
    var lo, hi := |t| - |r|, |t|;
    forall i | 0 <= i < lo ensures s[i] == '-' {
      assert s[i] == t[i];
    }
    assert r == s[lo..hi];
    SliceFacts(s, lo, hi);
    assert 0 <= lo <= hi <= |s| && r == s[lo..hi]
           && forall i :: 0 <= i < |s| && (i < lo || hi <= i) ==> s[i] == '-';
  }

  lemma SliceFacts(s: string, lo: int, hi: int)
    requires 0 <= lo <= hi <= |s|
    ensures forall c :: c in s[lo..hi] ==> c in s
    ensures NoDoubleDash(s) ==> NoDoubleDash(s[lo..hi])
  {
    var u := s[lo..hi];
    forall c | c in u ensures c in s {
      var i :| 0 <= i < |u| && u[i] == c;
      assert s[lo + i] == c;
    }
    if NoDoubleDash(s) {
      forall i | 0 <= i < |u| - 1 ensures !(u[i] == '-' && u[i + 1] == '-') {
        assert u[i] == s[lo + i] && u[i + 1] == s[lo + i + 1];
      }
    }
  }

  /** The characters of `s` except each '-' that directly follows another
      '-'; `afterDash` says whether the character just before `s` was one. */
  function DropRepeatedDashes(s: string, afterDash: bool): string
  {
    if s == [] then []
    else (if afterDash && s[0] == '-' then [] else [s[0]]) + DropRepeatedDashes(s[1..], s[0] == '-')
  }

  /** Collapsing dash runs keeps every character except a '-' right after
      another '-'. */
  lemma CollapseDashesIsFilter(s: string)
    ensures CollapseDashes(s) == DropRepeatedDashes(s, false)
  {
    DropRepeatedDashesIsCollapse(s, false);
  }

  lemma {:induction false} DropRepeatedDashesIsCollapse(s: string, afterDash: bool)
    ensures DropRepeatedDashes(s, afterDash)
            == if afterDash && s != [] && s[0] == '-' then CollapseDashes(s)[1..] else CollapseDashes(s)
  {
    if |s| >= 2 {
      DropRepeatedDashesIsCollapse(s[1..], s[0] == '-');
      var rest := CollapseDashes(s[1..]);
      if s[0] == '-' && s[1] == '-' && !afterDash {
        assert rest == ['-'] + rest[1..];
      }
    }
  }

  lemma CollapseAfterChar(c: char, t: string)
    requires c != '-'
    ensures CollapseDashes([c] + t) == [c] + CollapseDashes(t)
  {
    assert ([c] + t)[1..] == t;
  }

  // ---------------------------------------------------- words and joining

  predicate IsDash(c: char)
  {
    c == '-'
  }

  /** The pieces of `s` between separators, as Python's `split` gives them:
      adjacent separators and separators at either end give empty pieces. */
  function Fields(s: string, isSep: char -> bool): (fs: seq<string>)
    ensures |fs| >= 1
    ensures forall i, j :: 0 <= i < |fs| && 0 <= j < |fs[i]| ==> !isSep(fs[i][j])
  {
    if s == [] then [[]]
    else
      var rest := Fields(s[1..], isSep);
      if isSep(s[0]) then [[]] + rest else [[s[0]] + rest[0]] + rest[1..]
  }

  /** The non-empty strings of `ws`, in order. */
  function NonEmpty(ws: seq<string>): (r: seq<string>)
    ensures forall i :: 0 <= i < |r| ==> r[i] != []
  {
    if ws == [] then [] else (if ws[0] == [] then [] else [ws[0]]) + NonEmpty(ws[1..])
  }

  /** The maximal runs of `s` that contain no separator. */
  function Words(s: string, isSep: char -> bool): seq<string>
  {
    NonEmpty(Fields(s, isSep))
  }

  /** `'-'.join(ws)`. */
  function JoinDash(ws: seq<string>): string
  {
    if ws == [] then [] else if |ws| == 1 then ws[0] else ws[0] + ("-" + JoinDash(ws[1..]))
  }

  /** Splitting at '-' and joining with '-' gives the text back. */
  lemma {:induction false} JoinFieldsIsIdentity(s: string)
    ensures JoinDash(Fields(s, IsDash)) == s
  {
    if s != [] {
      JoinFieldsIsIdentity(s[1..]);
      var rest := Fields(s[1..], IsDash);
      assert s == [s[0]] + s[1..];
      if s[0] != '-' && |rest| > 1 {
        assert ([[s[0]] + rest[0]] + rest[1..])[1..] == rest[1..];
      }
    }
  }

  /** Joining non-empty words gives "" only when there are none. */
  lemma JoinDashEmpty(ws: seq<string>)
    requires forall i :: 0 <= i < |ws| ==> ws[i] != []
    ensures JoinDash(ws) == [] <==> ws == []
  {
  }

  lemma JoinWordsOfDash(t: string)
    ensures JoinDash(Words(['-'] + t, IsDash)) == JoinDash(Words(t, IsDash))
  {
    assert (['-'] + t)[1..] == t;
    var fs := Fields(t, IsDash);
    assert Fields(['-'] + t, IsDash) == [[]] + fs;
    assert ([[]] + fs)[1..] == fs;
    assert NonEmpty([[]] + fs) == NonEmpty(fs);
  }

  lemma JoinWordsOfChar(c: char, t: string)
    requires c != '-'
    ensures var y := JoinDash(Words(t, IsDash));
            JoinDash(Words([c] + t, IsDash))
            == if t != [] && t[0] != '-' then [c] + y else if y == [] then [c] else [c] + ("-" + y)
  {
    assert ([c] + t)[1..] == t;
    var fs := Fields(t, IsDash);
    var later := NonEmpty(fs[1..]);
    var first := [c] + fs[0];
    assert ([first] + fs[1..])[1..] == fs[1..];
    assert Words([c] + t, IsDash) == [first] + later;
    assert fs == [fs[0]] + fs[1..];
    if fs[0] == [] {
      assert Words(t, IsDash) == later;
      JoinDashEmpty(later);
      if t != [] {
        assert t == [t[0]] + t[1..];
      }
    } else {
      assert t != [] && t[0] != '-';
      assert Words(t, IsDash) == [fs[0]] + later;
      assert ([fs[0]] + later)[1..] == later;
      assert ([first] + later)[1..] == later;
    }
  }

  /** `StripTrailing` of a concatenation strips into `a` only when `b` is all
      dashes. */
  lemma {:induction false} StripTrailingConcat(a: string, b: string)
    ensures StripTrailing(a + b) == if StripTrailing(b) == [] then StripTrailing(a) else a + StripTrailing(b)
    decreases |b|
  {
    if b == [] {
      assert a + b == a;
    } else if b[|b| - 1] == '-' {
      assert (a + b)[..|a + b| - 1] == a + b[..|b| - 1];
      StripTrailingConcat(a, b[..|b| - 1]);
    }
  }

  lemma StripDashesDropsDash(u: string)
    ensures StripDashes(['-'] + u) == StripDashes(u)
  {
    StripTrailingConcat(['-'], u);
    assert StripTrailing(['-']) == [];
    var v := StripTrailing(u);
    if v != [] {
      assert (['-'] + v)[1..] == v;
    }
  }

  lemma StripCollapseOfDash(t: string)
    ensures StripDashes(CollapseDashes(['-'] + t)) == StripDashes(CollapseDashes(t))
  {
    assert (['-'] + t)[1..] == t;
    if !(t != [] && t[0] == '-') {
      assert CollapseDashes(['-'] + t) == ['-'] + CollapseDashes(t);
      StripDashesDropsDash(CollapseDashes(t));
    }
  }

  lemma StripCollapseOfChar(c: char, t: string)
    requires c != '-'
    ensures var x := StripDashes(CollapseDashes(t));
            StripDashes(CollapseDashes([c] + t))
            == if t != [] && t[0] != '-' then [c] + x else if x == [] then [c] else [c] + ("-" + x)
  {
    var u := CollapseDashes(t);
    CollapseAfterChar(c, t);
    assert u != [] <==> t != [];
    assert u != [] ==> u[0] == t[0];
    StripAfterChar(c, u);
  }

  /** Stripping a text that starts with a non-dash character `c`. */
  lemma StripAfterChar(c: char, u: string)
    requires c != '-' && NoDoubleDash(u)
    ensures var x := StripDashes(u);
            StripDashes([c] + u)
            == if u != [] && u[0] != '-' then [c] + x else if x == [] then [c] else [c] + ("-" + x)
  {
    var v := StripTrailing(u);
    var x := StripDashes(u);
    StripDashesAfterChar(c, u);
    if u == [] {
      assert v == [] && x == [];
    } else if u[0] != '-' {
      StripTrailingOfCharStart(u);
    } else {
      StripTrailingOfDashStart(u);
    }
  }

  lemma StripDashesAfterChar(c: char, u: string)
    requires c != '-'
    ensures var v := StripTrailing(u);
            StripDashes([c] + u) == if v == [] then [c] else [c] + v
  {
    var v := StripTrailing(u);
    StripTrailingConcat([c], u);
    assert StripTrailing([c]) == [c];
    assert StripLeading([c] + v) == [c] + v;
  }

  /** A text led by a non-dash keeps that lead when its trailing dashes
      are stripped, so it has no leading dash to strip. */
  lemma StripTrailingOfCharStart(u: string)
    requires u != [] && u[0] != '-'
    ensures var v := StripTrailing(u);
            v != [] && StripDashes(u) == v
  {
    var v := StripTrailing(u);
    StripTrailingRemovesDashes(u);
    assert v != [] && v[0] == u[0] by {
      assert v == u[..|v|];
    }
    assert StripLeading(v) == v;
  }

  /** A dash-led text without double dashes loses its lead dash and nothing
      more when its trailing dashes are stripped and then its leading ones. */
  lemma StripTrailingOfDashStart(u: string)
    requires u != [] && u[0] == '-' && NoDoubleDash(u)
    ensures var v := StripTrailing(u);
            (v == [] <==> StripDashes(u) == []) && (v != [] ==> v == "-" + StripDashes(u))
  {
    var v := StripTrailing(u);
    if v != [] {
      assert |v| >= 2 && v[0] == u[0] && v[1] == u[1] by {
        assert v == u[..|v|];
      }
      assert u[1] != '-' by {
        assert !(u[0] == '-' && u[1] == '-');
      }
      StripLeadingOfDashLed(v);
    }
  }

  lemma StripLeadingOfDashLed(v: string)
    requires |v| >= 2 && v[0] == '-' && v[1] != '-'
    ensures StripLeading(v) == v[1..] && v == "-" + v[1..]
  {
    assert StripLeading(v[1..]) == v[1..];
  }

  /** Stripping the ends of the collapsed text is joining its dash-free
      words with single dashes. */
  lemma {:induction false} StripCollapseIsJoin(t: string)
    ensures StripDashes(CollapseDashes(t)) == JoinDash(Words(t, IsDash))
    decreases |t|
  {
    if t == [] {
      assert Fields(t, IsDash) == [[]];
      assert NonEmpty([[]]) == [];
    } else {
      assert t == [t[0]] + t[1..];
      StripCollapseIsJoin(t[1..]);
      if t[0] == '-' {
        StripCollapseOfDash(t[1..]);
        JoinWordsOfDash(t[1..]);
      } else {
        StripCollapseOfChar(t[0], t[1..]);
        JoinWordsOfChar(t[0], t[1..]);
      }
    }
  }

  /** Marking separators as '-' splits at the same places, when no other
      character is a '-'. */
  lemma {:induction false} FieldsOfMarked(s: string, marked: string, isSep: char -> bool)
    requires |marked| == |s|
    requires forall i :: 0 <= i < |s| ==> marked[i] == if isSep(s[i]) then '-' else s[i]
    requires forall i :: 0 <= i < |s| && !isSep(s[i]) ==> s[i] != '-'
    ensures Fields(marked, IsDash) == Fields(s, isSep)
  {
    if s != [] {
      FieldsOfMarked(s[1..], marked[1..], isSep);
    }
  }

  /** The normaliser's own word of "no name": '模型' or 'model'. */
  predicate IsPlaceholderName(lowered: string)
  {
    lowered == "模型" || lowered == "model"
  }

  predicate IsNonWordChar(c: char)
  {
    !IsWordChar(c)
  }

  /** `_normalize_model_name`: lower-case, turn every non-word character into
      '-', collapse dash runs and strip dashes at both ends; the empty name
      and the placeholders '模型' / 'model' give "". */
  function NormalizeModelName(name: string): (r: string)
    ensures name == "" || IsPlaceholderName(LowerStr(name)) ==> r == ""
    ensures !(name == "" || IsPlaceholderName(LowerStr(name))) ==>
              r == JoinDash(Words(LowerStr(name), IsNonWordChar)) && NonDash(r) == WordChars(LowerStr(name))
    ensures r == [] || (r[0] != '-' && r[|r| - 1] != '-')
    ensures NoDoubleDash(r)
    ensures forall i :: 0 <= i < |r| ==> r[i] == '-' || (IsWordChar(r[i]) && Lower(r[i]) == r[i])
  {
    var lowered := LowerStr(name);
    if name == "" || IsPlaceholderName(lowered) then ""
    else
      LoweredIsLower(name);
      NormalizePipeline(lowered);
      PipelineIsJoin(lowered);
      StripDashes(CollapseDashes(ReplaceNonWord(lowered)))
  }

  lemma LoweredIsLower(s: string)
    ensures forall i :: 0 <= i < |LowerStr(s)| ==> Lower(LowerStr(s)[i]) == LowerStr(s)[i]
  {
  }

  /** What the replace-collapse-strip pipeline yields on lower-cased text. */
  lemma NormalizePipeline(lowered: string)
    requires forall i :: 0 <= i < |lowered| ==> Lower(lowered[i]) == lowered[i]
    ensures var r := StripDashes(CollapseDashes(ReplaceNonWord(lowered)));
            && NonDash(r) == WordChars(lowered)
            && NoDoubleDash(r)
            && forall i :: 0 <= i < |r| ==> r[i] == '-' || (IsWordChar(r[i]) && Lower(r[i]) == r[i])
  {
    NonDashOfReplaced(lowered);
    PipelineChars(lowered);
  }

  /** The pipeline joins the runs of word characters with single dashes. */
  lemma PipelineIsJoin(s: string)
    ensures StripDashes(CollapseDashes(ReplaceNonWord(s))) == JoinDash(Words(s, IsNonWordChar))
  {
    StripCollapseIsJoin(ReplaceNonWord(s));
    ReplacedFields(s);
  }

  /** Splitting the replaced text at '-' is splitting at non-word
      characters. */
  lemma ReplacedFields(s: string)
    ensures Fields(ReplaceNonWord(s), IsDash) == Fields(s, IsNonWordChar)
  {
    FieldsOfMarked(s, ReplaceNonWord(s), IsNonWordChar);
  }

  lemma PipelineChars(lowered: string)
    requires forall i :: 0 <= i < |lowered| ==> Lower(lowered[i]) == lowered[i]
    ensures var r := StripDashes(CollapseDashes(ReplaceNonWord(lowered)));
            forall i :: 0 <= i < |r| ==> r[i] == '-' || (IsWordChar(r[i]) && Lower(r[i]) == r[i])
  {
    var replaced := ReplaceNonWord(lowered);
    var collapsed := CollapseDashes(replaced);
    var r := StripDashes(collapsed);
    forall i | 0 <= i < |r|
      ensures r[i] == '-' || (IsWordChar(r[i]) && Lower(r[i]) == r[i])
    {
      var c := r[i];
      assert c in r;
      assert c in replaced;
      var j :| 0 <= j < |replaced| && replaced[j] == c;
    }
  }

  lemma LowerStrFixed(s: string)
    requires forall i :: 0 <= i < |s| ==> Lower(s[i]) == s[i]
    ensures LowerStr(s) == s
  {
  }

  lemma ReplaceNonWordFixed(s: string)
    requires forall i :: 0 <= i < |s| ==> s[i] == '-' || IsWordChar(s[i])
    ensures ReplaceNonWord(s) == s
  {
  }

  lemma StripDashesFixed(s: string)
    requires s == [] || (s[0] != '-' && s[|s| - 1] != '-')
    ensures StripDashes(s) == s
  {
    assert StripTrailing(s) == s;
  }

  /** Normalising is idempotent, except that a first result equal to a
      placeholder ('model' or '模型') is normalised to "" the second time. */
  lemma NormalizeIdempotent(name: string)
    ensures var r := NormalizeModelName(name);
            !IsPlaceholderName(r) ==> NormalizeModelName(r) == r
  {
    var r := NormalizeModelName(name);
    if r != "" && !IsPlaceholderName(r) {
      LowerStrFixed(r);
      ReplaceNonWordFixed(r);
      CollapseDashesIdentity(r);
      StripDashesFixed(r);
    }
  }

  /** The exception is real: "Model!" normalises to "model", and that to "". */
  lemma NormalizeNotIdempotentOnPlaceholder()
    ensures NormalizeModelName("Model!") == "model"
    ensures NormalizeModelName(NormalizeModelName("Model!")) == ""
  {
    NormalizeModelBang();
    NormalizePlaceholderResult("Model!");
  }

  lemma NormalizeModelBang()
    ensures NormalizeModelName("Model!") == "model"
  {
    LowerModelBang();
    NormalizeSteps("Model!");
    ReplaceModelBang();
    StripModelDash();
  }

  lemma NormalizeSteps(name: string)
    requires name != "" && !IsPlaceholderName(LowerStr(name))
    ensures NormalizeModelName(name) == StripDashes(CollapseDashes(ReplaceNonWord(LowerStr(name))))
  {
  }

  /** A result that is itself a placeholder normalises to "". */
  lemma NormalizePlaceholderResult(name: string)
    requires IsPlaceholderName(NormalizeModelName(name))
    ensures NormalizeModelName(NormalizeModelName(name)) == ""
  {
    LowerStrFixed(NormalizeModelName(name));
  }

  lemma LowerModelBang()
    ensures LowerStr("Model!") == "model!"
  {
    var name: string := "Model!";
    var lowered: string := "model!";
    assert forall i :: 0 <= i < |name| ==> LowerStr(name)[i] == lowered[i];
  }

  lemma ReplaceModelBang()
    ensures ReplaceNonWord("model!") == "model-"
  {
    var lowered: string := "model!";
    var replaced: string := "model-";
    assert forall i :: 0 <= i < |lowered| ==> ReplaceNonWord(lowered)[i] == replaced[i];
  }

  lemma StripModelDash()
    ensures StripDashes(CollapseDashes("model-")) == "model"
  {
    var replaced: string := "model-";
    var stripped: string := "model";
    assert replaced[..|replaced| - 1] == stripped;
    assert StripTrailing(stripped) == stripped;
    assert StripTrailing(replaced) == stripped;
    assert StripLeading(stripped) == stripped;
    CollapseDashesIdentity(replaced);
  }

  // ---------------------------------------------------------- price parsing

  predicate IsPriceChar(c: char)
  {
    IsAsciiDigit(c) || c == '.'
  }

  /** `re.sub(r'[^\d.]', '', s)`: keeps the ASCII digits and dots, in order. */
  function CleanPrice(s: string): (r: string)
    ensures forall i :: 0 <= i < |r| ==> IsPriceChar(r[i])
    ensures |r| <= |s|
  {
    if s == [] then [] else (if IsPriceChar(s[0]) then [s[0]] else []) + CleanPrice(s[1..])
  }

  lemma {:induction false} CleanPriceConcat(a: string, b: string)
    ensures CleanPrice(a + b) == CleanPrice(a) + CleanPrice(b)
  {
    if a == [] {
      assert a + b == b;
    } else {
      var head := if IsPriceChar(a[0]) then [a[0]] else [];
      assert (a + b)[0] == a[0];
      assert (a + b)[1..] == a[1..] + b;
      CleanPriceConcat(a[1..], b);
      calc {
        CleanPrice(a + b);
        head + CleanPrice(a[1..] + b);
        head + (CleanPrice(a[1..]) + CleanPrice(b));
        (head + CleanPrice(a[1..])) + CleanPrice(b);
      }
    }
  }

  /** One character is kept exactly when it is a digit or a dot; with
      `CleanPriceConcat` this fixes the result on every text. */
  lemma CleanPriceOfChar(c: char)
    ensures CleanPrice([c]) == if IsPriceChar(c) then [c] else []
  {
  }

  /** Text without digits or dots cleans to "". */
  lemma {:induction false} CleanPriceDropsOtherText(s: string)
    requires forall i :: 0 <= i < |s| ==> !IsPriceChar(s[i])
    ensures CleanPrice(s) == ""
  {
    if s != [] {
      CleanPriceDropsOtherText(s[1..]);
    }
  }

  lemma {:induction false} CleanPriceKeepsPriceText(s: string)
    requires forall i :: 0 <= i < |s| ==> IsPriceChar(s[i])
    ensures CleanPrice(s) == s
  {
    if s != [] {
      CleanPriceKeepsPriceText(s[1..]);
    }
  }

  /** Position of the first '.', or |s| when there is none. */
  function DotIndex(s: string): (i: nat)
    ensures i <= |s|
    ensures i < |s| ==> s[i] == '.'
    ensures forall j :: 0 <= j < i ==> s[j] != '.'
  {
    if s == [] || s[0] == '.' then 0 else 1 + DotIndex(s[1..])
  }

  predicate AllDigits(s: string)
  {
    forall i :: 0 <= i < |s| ==> IsAsciiDigit(s[i])
  }

  predicate HasDigit(s: string)
  {
    exists i :: 0 <= i < |s| && IsAsciiDigit(s[i])
  }

  function DigitsValue(s: string): nat
    requires AllDigits(s)
  {
    if s == [] then 0 else 10 * DigitsValue(s[..|s| - 1]) + (s[|s| - 1] as int - '0' as int)
  }

  function Pow10(n: nat): (p: nat)
    ensures p >= 1
  {
    if n == 0 then 1 else 10 * Pow10(n - 1)
  }

  /** What Python's `float()` accepts among strings of digits and dots: at
      least one digit and at most one dot ("1.", ".5", "007" are accepted;
      "", "." and "1.2.3" are not). */
  predicate IsDecimalText(c: string)
  {
    var i := DotIndex(c);
    HasDigit(c) && AllDigits(c[..i]) && (i == |c| || AllDigits(c[i + 1..]))
  }

  /** The exact value of a decimal text: whole part plus fraction. */
  function DecimalValue(c: string): (v: real)
    requires IsDecimalText(c)
    ensures v >= 0.0
  {
    var i := DotIndex(c);
    if i == |c| then
      assert c[..i] == c;
      DigitsValue(c) as real
    else DigitsValue(c[..i]) as real + DigitsValue(c[i + 1..]) as real / Pow10(|c| - i - 1) as real
  }

  /** Python's `float()` on a string of digits and dots; `None` stands for
      the `ValueError` it raises. */
  function ParseFloat(c: string): Option<real>
  {
    if IsDecimalText(c) then Some(DecimalValue(c)) else None
  }

  /** `_parse_price`: 0.0 for empty text, for text without digits or dots,
      and for a residue `float()` rejects; else the decimal value of the
      digits-and-dots residue. */
  function ParsePrice(priceText: string): (r: real)
    ensures r >= 0.0
    ensures IsDecimalText(CleanPrice(priceText)) ==> r == DecimalValue(CleanPrice(priceText))
    ensures !IsDecimalText(CleanPrice(priceText)) ==> r == 0.0
  {
    if priceText == "" then 0.0
    else
      var clean := CleanPrice(priceText);
      if clean == "" then 0.0
      else
        match ParseFloat(clean)
        case Some(v) => v
        case None => 0.0
  }

  /** Text around the number without digits or dots (a currency sign, a
      unit) does not change the parsed price. */
  lemma ParsePriceIgnoresUnits(prefix: string, body: string, suffix: string)
    requires forall i :: 0 <= i < |prefix| ==> !IsPriceChar(prefix[i])
    requires forall i :: 0 <= i < |suffix| ==> !IsPriceChar(suffix[i])
    ensures ParsePrice(prefix + body + suffix) == ParsePrice(body)
  {
    CleanPriceDropsOtherText(prefix);
    CleanPriceDropsOtherText(suffix);
    CleanPriceConcat(prefix + body, suffix);
    CleanPriceConcat(prefix, body);
    assert CleanPrice(prefix + body + suffix) == CleanPrice(body);
  }

  /** Decimal digits of a natural number, most significant first. */
  function NatToDigits(n: nat): (s: string)
    ensures s != [] && AllDigits(s)
    ensures DigitsValue(s) == n
  {
    var last := ['0' + (n % 10) as char];
    if n < 10 then last
    else
      var init := NatToDigits(n / 10);
      var s := init + last;
      assert s[..|s| - 1] == init;
      s
  }

  /** A price written as a whole number parses back to that number. */
  lemma ParsePriceOfDigits(n: nat)
    ensures ParsePrice(NatToDigits(n)) == n as real
  {
    var s := NatToDigits(n);
    CleanPriceKeepsPriceText(s);
    assert IsAsciiDigit(s[0]);
    assert DotIndex(s) == |s|;
    assert IsDecimalText(s);
  }

  /** The two free markers of the page: '免费' anywhere, or 'free' in any case. */
  predicate HasFreeMarker(text: string)
  {
    Contains(text, "免费") || Contains(LowerStr(text), "free")
  }

  /** `_parse_price_text`: 0.0 for text marked free, else `_parse_price`. */
  function ParsePriceText(priceText: string): (r: real)
    ensures r >= 0.0
    ensures HasFreeMarker(priceText) ==> r == 0.0
    ensures !HasFreeMarker(priceText) ==> r == ParsePrice(priceText)
  {
    if priceText == "" then 0.0
    else if HasFreeMarker(priceText) then 0.0
    else
      var clean := CleanPrice(priceText);
      if clean == "" then 0.0
      else
        match ParseFloat(clean)
        case Some(v) => v
        case None => 0.0
  }

  // ---------------------------------------------------------- column search

  /** Some keyword occurs in the header, both lower-cased. */
  predicate HeaderMatches(header: string, keywords: seq<string>)
  {
    exists j :: 0 <= j < |keywords| && Contains(LowerStr(header), LowerStr(keywords[j]))
  }

  /** `_find_column_index`: the first header that contains a keyword, case
      insensitively, or -1 when none does. */
  method FindColumnIndex(headers: seq<string>, keywords: seq<string>) returns (index: int)
    ensures -1 <= index < |headers|
    ensures index >= 0 ==> HeaderMatches(headers[index], keywords)
    ensures forall j :: 0 <= j < |headers| && (index == -1 || j < index) ==> !HeaderMatches(headers[j], keywords)
  {
    var i := 0;
    while i < |headers|
      invariant 0 <= i <= |headers|
      invariant forall j :: 0 <= j < i ==> !HeaderMatches(headers[j], keywords)
    {
      if HeaderMatches(headers[i], keywords) {
        return i;
      }
      i := i + 1;
    }
    return -1;
  }

  // ------------------------------------------------------ decision rules

  predicate TitleMarksFree(titleLower: string)
  {
    Contains(titleLower, "免费") || Contains(titleLower, "free")
  }

  predicate MarksFineTune(titleLower: string, nameLower: string)
  {
    Contains(titleLower, "微调") || Contains(titleLower, "finetune") || Contains(nameLower, "fine-tune")
  }

  /** `_determine_category`: free when the table title says so or both prices
      are zero, else fine_tune on a fine-tune marker, else paid when some price
      is positive, else free. */
  function DetermineCategory(tableTitle: string, modelName: string, inputPrice: real, outputPrice: real): (r: string)
    ensures Database.IsValidCategory(r)
    ensures inputPrice == 0.0 && outputPrice == 0.0 ==> r == "free"
    ensures TitleMarksFree(LowerStr(tableTitle)) ==> r == "free"
    ensures r == "fine_tune" <==> !TitleMarksFree(LowerStr(tableTitle)) && !(inputPrice == 0.0 && outputPrice == 0.0)
                                  && MarksFineTune(LowerStr(tableTitle), LowerStr(modelName))
    ensures inputPrice >= 0.0 && outputPrice >= 0.0 ==>
              (r == "paid" <==> !TitleMarksFree(LowerStr(tableTitle))
                                && !MarksFineTune(LowerStr(tableTitle), LowerStr(modelName))
                                && (inputPrice > 0.0 || outputPrice > 0.0))
  {
    var titleLower := LowerStr(tableTitle);
    var nameLower := LowerStr(modelName);
    if Contains(titleLower, "免费") || Contains(titleLower, "free") || (inputPrice == 0.0 && outputPrice == 0.0) then
      "free"
    else if Contains(titleLower, "微调") || Contains(titleLower, "finetune") || Contains(nameLower, "fine-tune") then
      "fine_tune"
    else if inputPrice > 0.0 || outputPrice > 0.0 then
      "paid"
    else
      "free"
  }

  /** `_determine_model_category`: '训练' (training) wins over everything, so
      training text is never free; otherwise a zero price or a free marker
      gives free. */
  function DetermineModelCategory(text: string, price: real): (r: string)
    ensures Database.IsValidCategory(r)
    ensures Contains(text, "训练") <==> r == "fine_tune"
    ensures r == "free" <==> !Contains(text, "训练") && (price == 0.0 || HasFreeMarker(LowerStr(text)))
  {
    LowerStrIdempotent(text);
    if Contains(text, "训练") then "fine_tune"
    else if price == 0.0 || Contains(LowerStr(text), "免费") || Contains(LowerStr(text), "free") then "free"
    else "paid"
  }

  /** The model-type rules in priority order: a marker (case-sensitive) and
      the type it selects. */
  function TypeRules(): seq<(string, string)>
  {
    [ ("VL", "Vision-Language"), ("Coder", "Code"), ("Thinking", "Thinking"),
      ("OCR", "OCR"), ("Chat", "Chat"), ("Instruct", "Instruction") ]
  }

  /** The first-match rule: the type of the first rule whose marker occurs
      in the name, "Language" when none does. */
  function FirstRuleType(name: string, rules: seq<(string, string)>): (r: string)
    ensures (forall j :: 0 <= j < |rules| ==> !Contains(name, rules[j].0)) ==> r == "Language"
    ensures forall j :: (0 <= j < |rules| && Contains(name, rules[j].0)
                         && forall i :: 0 <= i < j ==> !Contains(name, rules[i].0)) ==> r == rules[j].1
  {
    if rules == [] then "Language"
    else if Contains(name, rules[0].0) then rules[0].1
    else
      var r := FirstRuleType(name, rules[1..]);
      assert forall j :: 1 <= j < |rules| ==> rules[1..][j - 1] == rules[j];
      r
  }

  /** `_determine_model_type`: its chain of tests is the first-match rule
      over `TypeRules`. */
  function DetermineModelType(modelName: string): (r: string)
    ensures r == FirstRuleType(modelName, TypeRules())
  {
    var rules := TypeRules();
    assert rules[0].0 == "VL" && rules[1].0 == "Coder" && rules[2].0 == "Thinking";
    assert rules[3].0 == "OCR" && rules[4].0 == "Chat" && rules[5].0 == "Instruct";
    if Contains(modelName, "VL") then "Vision-Language"
    else if Contains(modelName, "Coder") then "Code"
    else if Contains(modelName, "Thinking") then "Thinking"
    else if Contains(modelName, "OCR") then "OCR"
    else if Contains(modelName, "Chat") then "Chat"
    else if Contains(modelName, "Instruct") then "Instruction"
    else "Language"
  }
}
