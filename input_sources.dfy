/**
 * Input-source selection of InputSourceManager.toggleInputSource
 * (ShiftSwitch/ShiftSwitchApp.swift:139-235). Each TISInputSource is reduced to the
 * properties the selection reads; the OS queries become parameters and TISSelectInputSource
 * becomes the returned decision together with the OS's answer to it.
 */
module InputSources {
  import opened Wrappers
  import opened Text

  /**
   * The properties of a TISInputSource the selection reads: its id and localized name (either
   * may be missing), whether its category is the keyboard input-source category, and its
   * enabled and select-capable flags (a missing flag reads as false).
   */
  datatype InputSource = InputSource(
    id: Option<string>,
    name: Option<string>,
    isKeyboard: bool,
    enabled: bool,
    selectable: bool)

  /** Id fragments that mark a CJK-style source (lines 165-170, 205-210). */
  const CjkIdMarkers: seq<string> := ["com.apple.inputmethod", "SCIM", "Pinyin", "Wubi", "Shuangpin", "TCIM"]
  /** Name fragments that mark a CJK-style source (lines 171-174). */
  const CjkNameMarkers: seq<string> := ["中文", "拼音", "五笔", "双拼"]
  /** The id fragment of Apple's Latin keyboard layouts (line 180). */
  const LatinLayoutMarker := "com.apple.keylayout"

  predicate IsCjkStyleId(id: string) {
    ContainsAny(id, CjkIdMarkers)
  }

  predicate IsCjkStyleName(name: string) {
    ContainsAny(name, CjkNameMarkers)
  }

  /** The Latin test of lines 178-180, with its two explicit ids. */
  predicate IsLatinStyleId(id: string) {
    id == "com.apple.keylayout.ABC" || id == "com.apple.keylayout.US" || Contains(id, LatinLayoutMarker)
  }

  /** The two explicit ids of the Latin test add nothing: both contain the layout marker. */
  lemma LatinIdIsLayoutMarker(id: string)
    ensures IsLatinStyleId(id) <==> Contains(id, LatinLayoutMarker)
  {
    if id == "com.apple.keylayout.ABC" || id == "com.apple.keylayout.US" {
      assert id[..|LatinLayoutMarker|] == LatinLayoutMarker;
      PrefixContained(id, LatinLayoutMarker);
    }
  }

  datatype SourceGroup = CjkStyle | LatinStyle | Unclassified

  /** The classification of lines 165-184: the CJK test first, the Latin test only in its `else`. */
  function Group(id: string, name: string): (g: SourceGroup)
    ensures g == CjkStyle <==> IsCjkStyleId(id) || IsCjkStyleName(name)
    ensures g == LatinStyle <==> !IsCjkStyleId(id) && !IsCjkStyleName(name) && Contains(id, LatinLayoutMarker)
  {
    LatinIdIsLayoutMarker(id);
    if IsCjkStyleId(id) || IsCjkStyleName(name) then CjkStyle
    else if IsLatinStyleId(id) then LatinStyle
    else Unclassified
  }

  /** Only keyboard-category sources with both an id and a name are looked at (lines 147-161). */
  predicate Considered(src: InputSource) {
    src.isKeyboard && src.id.Some? && src.name.Some?
  }

  /** isInputSourceAvailable (lines 86-96). */
  predicate Available(src: InputSource) {
    src.enabled && src.selectable
  }

  predicate IsChineseCandidate(src: InputSource) {
    Considered(src) && Available(src) && Group(src.id.value, src.name.value) == CjkStyle
  }

  predicate IsEnglishCandidate(src: InputSource) {
    Considered(src) && Available(src) && Group(src.id.value, src.name.value) == LatinStyle
  }

  /** The preferred Chinese source: an id containing ITABC or Pinyin (line 191). */
  predicate IsPrimary(src: InputSource) {
    src.id.Some? && (Contains(src.id.value, "ITABC") || Contains(src.id.value, "Pinyin"))
  }

  /** The keyboard-category filter of lines 147-153, keeping enumeration order. */
  function KeyboardSources(s: seq<InputSource>): (r: seq<InputSource>)
    ensures forall x :: x in r <==> x in s && x.isKeyboard
    decreases |s|
  {
    if |s| == 0 then []
    else
      var init, last := s[..|s| - 1], s[|s| - 1];
      assert s == init + [last];
      KeyboardSources(init) + (if last.isKeyboard then [last] else [])
  }

  /** `chineseSources`: the available CJK-style sources, in enumeration order (lines 160-177). */
  function ChineseCandidates(s: seq<InputSource>): (r: seq<InputSource>)
    ensures forall x :: x in r <==> x in s && IsChineseCandidate(x)
    decreases |s|
  {
    if |s| == 0 then []
    else
      var init, last := s[..|s| - 1], s[|s| - 1];
      assert s == init + [last];
      ChineseCandidates(init) + (if IsChineseCandidate(last) then [last] else [])
  }

  /** The index of the last English candidate, or -1 when there is none. */
  function LastEnglishIndex(s: seq<InputSource>): (k: int)
    ensures -1 <= k < |s|
    ensures k >= 0 ==> IsEnglishCandidate(s[k])
    ensures forall j :: k < j < |s| ==> !IsEnglishCandidate(s[j])
    decreases |s|
  {
    if |s| == 0 then -1
    else if IsEnglishCandidate(s[|s| - 1]) then |s| - 1
    else LastEnglishIndex(s[..|s| - 1])
  }

  /** `englishSource`: overwritten by every available Latin-style source, so the last one wins (line 182). */
  function EnglishCandidate(s: seq<InputSource>): (r: Option<InputSource>)
    ensures r.None? <==> forall i :: 0 <= i < |s| ==> !IsEnglishCandidate(s[i])
    ensures r.Some? ==> IsEnglishCandidate(r.value) && r.value in s
  {
    var k := LastEnglishIndex(s);
    if k < 0 then None else Some(s[k])
  }

  /** The first primary source of a list (the loop with `break` of lines 189-196). */
  function FirstPrimary(c: seq<InputSource>): (r: Option<InputSource>)
    ensures r.None? <==> forall i :: 0 <= i < |c| ==> !IsPrimary(c[i])
    ensures r.Some? ==> exists i :: 0 <= i < |c| && c[i] == r.value && IsPrimary(c[i])
                                    && forall j :: 0 <= j < i ==> !IsPrimary(c[j])
    decreases |c|
  {
    if |c| == 0 then None
    else if IsPrimary(c[0]) then Some(c[0])
    else
      assert forall i :: 1 <= i < |c| ==> c[i] == c[1..][i - 1];
      FirstPrimary(c[1..])
  }

  /** `chineseSource`: the first primary candidate, or else the first candidate (lines 188-201). */
  function ChineseTarget(c: seq<InputSource>): (r: Option<InputSource>)
    ensures r.None? <==> |c| == 0
    ensures r.Some? ==> r.value in c
    ensures r.Some? ==> IsPrimary(r.value) || forall i :: 0 <= i < |c| ==> !IsPrimary(c[i])
  {
    var primary := FirstPrimary(c);
    if primary.Some? then primary else if |c| > 0 then Some(c[0]) else None
  }

  /** The outcome of a toggle request short of the OS's answer to the selection. */
  datatype Decision =
    | NoCurrentSource             // the current source or its id could not be read (lines 140-144)
    | NoTarget                    // no source to switch to (lines 218-221)
    | SwitchTo(target: InputSource)  // TISSelectInputSource(target) is called (line 223)

  /**
   * The decision toggleInputSource takes for a current source and the list of enabled sources.
   * The current source counts as Chinese by its id alone (lines 205-210).
   */
  function ToggleDecision(current: Option<InputSource>, enabled: seq<InputSource>): (d: Decision)
    ensures d == NoCurrentSource <==> current.None? || current.value.id.None?
    ensures d.SwitchTo? ==> d.target in enabled && d.target.isKeyboard && Available(d.target)
    // From a CJK-style current source the target is a Latin layout, if one is available.
    ensures current.Some? && current.value.id.Some? && IsCjkStyleId(current.value.id.value) ==>
              && (d.SwitchTo? <==> exists i :: 0 <= i < |enabled| && IsEnglishCandidate(enabled[i]))
              && (d.SwitchTo? ==> IsEnglishCandidate(d.target))
    // From any other current source the target is a CJK-style source, if one is available.
    ensures current.Some? && current.value.id.Some? && !IsCjkStyleId(current.value.id.value) ==>
              && (d.SwitchTo? <==> exists i :: 0 <= i < |enabled| && IsChineseCandidate(enabled[i]))
              && (d.SwitchTo? ==> IsChineseCandidate(d.target))
  {
    if current.None? || current.value.id.None? then NoCurrentSource
    else
      var target :=
        if IsCjkStyleId(current.value.id.value) then EnglishCandidate(enabled)
        else ChineseTarget(ChineseCandidates(enabled));
      if target.None? then NoTarget else SwitchTo(target.value)
  }

  lemma KeyboardSnoc(a: seq<InputSource>, x: InputSource)
    ensures KeyboardSources(a + [x]) == KeyboardSources(a) + (if x.isKeyboard then [x] else [])
  {
    assert (a + [x])[..|a|] == a;
  }

  lemma ChineseSnoc(a: seq<InputSource>, x: InputSource)
    ensures ChineseCandidates(a + [x]) == ChineseCandidates(a) + (if IsChineseCandidate(x) then [x] else [])
  {
    assert (a + [x])[..|a|] == a;
  }

  lemma EnglishSnoc(a: seq<InputSource>, x: InputSource)
    ensures EnglishCandidate(a + [x]) == if IsEnglishCandidate(x) then Some(x) else EnglishCandidate(a)
  {
    assert (a + [x])[..|a|] == a;
  }

  /** Filtering on the keyboard category first does not change the Chinese candidates. */
  lemma {:induction false} ChineseIgnoresNonKeyboard(s: seq<InputSource>)
    ensures ChineseCandidates(KeyboardSources(s)) == ChineseCandidates(s)
    decreases |s|
  {
    if |s| > 0 {
      var init, last := s[..|s| - 1], s[|s| - 1];
      assert s == init + [last];
      ChineseIgnoresNonKeyboard(init);
      KeyboardSnoc(init, last);
      ChineseSnoc(init, last);
      if last.isKeyboard {
        ChineseSnoc(KeyboardSources(init), last);
      } else {
        assert KeyboardSources(init) + [] == KeyboardSources(init);
      }
    }
  }

  /** Filtering on the keyboard category first does not change the English candidate. */
  lemma {:induction false} EnglishIgnoresNonKeyboard(s: seq<InputSource>)
    ensures EnglishCandidate(KeyboardSources(s)) == EnglishCandidate(s)
    decreases |s|
  {
    if |s| > 0 {
      var init, last := s[..|s| - 1], s[|s| - 1];
      assert s == init + [last];
      EnglishIgnoresNonKeyboard(init);
      KeyboardSnoc(init, last);
      EnglishSnoc(init, last);
      if last.isKeyboard {
        EnglishSnoc(KeyboardSources(init), last);
      } else {
        assert KeyboardSources(init) + [] == KeyboardSources(init);
      }
    }
  }

  /** Both candidate choices depend only on the keyboard-category sources. */
  lemma CandidatesIgnoreNonKeyboard(s: seq<InputSource>)
    ensures ChineseCandidates(KeyboardSources(s)) == ChineseCandidates(s)
    ensures EnglishCandidate(KeyboardSources(s)) == EnglishCandidate(s)
  {
    ChineseIgnoresNonKeyboard(s);
    EnglishIgnoresNonKeyboard(s);
  }

  lemma {:induction false} FirstPrimaryAppend(a: seq<InputSource>, b: seq<InputSource>)
    ensures FirstPrimary(a + b) == if FirstPrimary(a).Some? then FirstPrimary(a) else FirstPrimary(b)
    decreases |a|
  {
    if |a| == 0 {
      assert a + b == b;
    } else {
      assert (a + b)[0] == a[0];
      assert (a + b)[1..] == a[1..] + b;
      FirstPrimaryAppend(a[1..], b);
    }
  }

  /** Without a source that is both a Chinese candidate and primary, the preference finds nothing. */
  lemma NoPrimaryCandidate(s: seq<InputSource>)
    requires forall j :: 0 <= j < |s| ==> !(IsChineseCandidate(s[j]) && IsPrimary(s[j]))
    ensures FirstPrimary(ChineseCandidates(s)) == None
  {
    var c := ChineseCandidates(s);
    forall k | 0 <= k < |c| ensures !IsPrimary(c[k]) {
      assert c[k] in c;
      var j :| 0 <= j < |s| && s[j] == c[k];
    }
  }

  /** The first source that is both a Chinese candidate and primary is the preferred one among the candidates. */
  lemma {:induction false} FirstPrimaryCandidate(s: seq<InputSource>, i: int)
    requires 0 <= i < |s| && IsChineseCandidate(s[i]) && IsPrimary(s[i])
    requires forall j :: 0 <= j < i ==> !(IsChineseCandidate(s[j]) && IsPrimary(s[j]))
    ensures FirstPrimary(ChineseCandidates(s)) == Some(s[i])
    decreases |s|
  {
    var init, last := s[..|s| - 1], s[|s| - 1];
    assert s == init + [last];
    ChineseSnoc(init, last);
    FirstPrimaryAppend(ChineseCandidates(init), if IsChineseCandidate(last) then [last] else []);
    if i == |s| - 1 {
      NoPrimaryCandidate(init);
      assert [last][0] == last;
    } else {
      FirstPrimaryCandidate(init, i);
    }
  }

  lemma {:induction false} NoCandidates(s: seq<InputSource>)
    requires forall j :: 0 <= j < |s| ==> !IsChineseCandidate(s[j])
    ensures ChineseCandidates(s) == []
    decreases |s|
  {
    if |s| > 0 {
      NoCandidates(s[..|s| - 1]);
    }
  }

  /** The first Chinese candidate in enumeration order heads the candidate list. */
  lemma {:induction false} FirstCandidate(s: seq<InputSource>, i: int)
    requires 0 <= i < |s| && IsChineseCandidate(s[i])
    requires forall j :: 0 <= j < i ==> !IsChineseCandidate(s[j])
    ensures |ChineseCandidates(s)| > 0 && ChineseCandidates(s)[0] == s[i]
    decreases |s|
  {
    var init, last := s[..|s| - 1], s[|s| - 1];
    assert s == init + [last];
    ChineseSnoc(init, last);
    if i < |s| - 1 {
      FirstCandidate(init, i);
    } else {
      NoCandidates(init);
    }
  }

  /**
   * From a current source that is not CJK-style by id, the toggle selects the first available
   * CJK-style source whose id contains ITABC or Pinyin.
   */
  lemma LatinCurrentSelectsFirstPrimary(current: InputSource, enabled: seq<InputSource>, i: int)
    requires current.id.Some? && !IsCjkStyleId(current.id.value)
    requires 0 <= i < |enabled| && IsChineseCandidate(enabled[i]) && IsPrimary(enabled[i])
    requires forall j :: 0 <= j < i ==> !(IsChineseCandidate(enabled[j]) && IsPrimary(enabled[j]))
    ensures ToggleDecision(Some(current), enabled) == SwitchTo(enabled[i])
  {
    FirstPrimaryCandidate(enabled, i);
  }

  /** Without a primary source among the candidates, the toggle selects the first available CJK-style source. */
  lemma LatinCurrentSelectsFirstCandidate(current: InputSource, enabled: seq<InputSource>, i: int)
    requires current.id.Some? && !IsCjkStyleId(current.id.value)
    requires 0 <= i < |enabled| && IsChineseCandidate(enabled[i])
    requires forall j :: 0 <= j < i ==> !IsChineseCandidate(enabled[j])
    requires forall j :: 0 <= j < |enabled| && IsChineseCandidate(enabled[j]) ==> !IsPrimary(enabled[j])
    ensures ToggleDecision(Some(current), enabled) == SwitchTo(enabled[i])
  {
    FirstCandidate(enabled, i);
    var c := ChineseCandidates(enabled);
    forall k | 0 <= k < |c| ensures !IsPrimary(c[k]) {
      assert c[k] in c;
      var j :| 0 <= j < |enabled| && enabled[j] == c[k];
    }
  }

  /** From a CJK-style current source (by id), the toggle selects the last available Latin layout. */
  lemma CjkCurrentSelectsLastLatin(current: InputSource, enabled: seq<InputSource>, i: int)
    requires current.id.Some? && IsCjkStyleId(current.id.value)
    requires 0 <= i < |enabled| && IsEnglishCandidate(enabled[i])
    requires forall j :: i < j < |enabled| ==> !IsEnglishCandidate(enabled[j])
    ensures ToggleDecision(Some(current), enabled) == SwitchTo(enabled[i])
  {
    var k := LastEnglishIndex(enabled);
    assert k >= i;
  }

  /** The keyboard-category filter of lines 147-153. */
  method FilterKeyboardSources(enabled: seq<InputSource>) returns (keyboardSources: seq<InputSource>)
    ensures keyboardSources == KeyboardSources(enabled)
  {
    keyboardSources := [];
    var i := 0;
    while i < |enabled|
      invariant 0 <= i <= |enabled|
      invariant keyboardSources == KeyboardSources(enabled[..i])
    {
      KeyboardSnoc(enabled[..i], enabled[i]);
      assert enabled[..i + 1] == enabled[..i] + [enabled[i]];
      if enabled[i].isKeyboard {
        keyboardSources := keyboardSources + [enabled[i]];
      }
      i := i + 1;
    }
    assert enabled[..|enabled|] == enabled;
  }

  /** The classification loop of lines 160-186, over the keyboard sources: collects `chineseSources` and the last `englishSource`. */
  method CollectCandidates(keyboardSources: seq<InputSource>)
    returns (chineseSources: seq<InputSource>, englishSource: Option<InputSource>)
    requires forall k :: 0 <= k < |keyboardSources| ==> keyboardSources[k].isKeyboard
    ensures chineseSources == ChineseCandidates(keyboardSources)
    ensures englishSource == EnglishCandidate(keyboardSources)
  {
    englishSource := None;
    chineseSources := [];
    var i := 0;
    while i < |keyboardSources|
      invariant 0 <= i <= |keyboardSources|
      invariant chineseSources == ChineseCandidates(keyboardSources[..i])
      invariant englishSource == EnglishCandidate(keyboardSources[..i])
    {
      var source := keyboardSources[i];
      ChineseSnoc(keyboardSources[..i], source);
      EnglishSnoc(keyboardSources[..i], source);
      assert keyboardSources[..i + 1] == keyboardSources[..i] + [source];
      if source.id.Some? && source.name.Some? {
        var sourceId, name := source.id.value, source.name.value;
        var available := Available(source);
        if IsCjkStyleId(sourceId) || IsCjkStyleName(name) {
          if available {
            chineseSources := chineseSources + [source];
          }
        } else if IsLatinStyleId(sourceId) {
          if available {
            englishSource := Some(source);
          }
        }
      }
      i := i + 1;
    }
    assert keyboardSources[..|keyboardSources|] == keyboardSources;
  }

  /** The preference of lines 188-201: the first ITABC/Pinyin candidate, else the first candidate. */
  method PickChineseSource(chineseSources: seq<InputSource>) returns (chineseSource: Option<InputSource>)
    ensures chineseSource == ChineseTarget(chineseSources)
  {
    chineseSource := None;
    var j := 0;
    while j < |chineseSources|
      invariant 0 <= j <= |chineseSources|
      invariant chineseSource == None
      invariant FirstPrimary(chineseSources) == FirstPrimary(chineseSources[j..])
    {
      var source := chineseSources[j];
      assert chineseSources[j..][1..] == chineseSources[j + 1..];
      if source.id.Some? {
        var sourceId := source.id.value;
        if Contains(sourceId, "ITABC") || Contains(sourceId, "Pinyin") {
          chineseSource := Some(source);
          break;
        }
      }
      j := j + 1;
    }
    if chineseSource == None && |chineseSources| > 0 {
      chineseSource := Some(chineseSources[0]);
    }
  }

  /**
   * toggleInputSource with its OS queries as parameters: `current` is the current source,
   * `enabled` the list of enabled sources, and `selectSucceeds` whether TISSelectInputSource
   * would return noErr. The result is true exactly when a switch was requested and succeeded.
   */
  method ToggleInputSource(current: Option<InputSource>, enabled: seq<InputSource>, selectSucceeds: bool)
    returns (decision: Decision, success: bool)
    ensures decision == ToggleDecision(current, enabled)
    ensures success <==> decision.SwitchTo? && selectSucceeds
  {
    if current.None? || current.value.id.None? {
      return NoCurrentSource, false;
    }
    var currentId := current.value.id.value;

    var keyboardSources := FilterKeyboardSources(enabled);
    var chineseSources, englishSource := CollectCandidates(keyboardSources);
    CandidatesIgnoreNonKeyboard(enabled);
    var chineseSource := PickChineseSource(chineseSources);

    var isCurrentChinese := IsCjkStyleId(currentId);
    var target := if isCurrentChinese then englishSource else chineseSource;
    if target.None? {
      return NoTarget, false;
    }
    decision := SwitchTo(target.value);
    success := selectSucceeds;
  }

  /**
   * The current source is classified by id alone, unlike the candidates. Take an available
   * Latin layout and an available keyboard source that is CJK-style only by its name (a
   * third-party pinyin method with id "com.sogou.inputmethod.sogou.pinyin" and name "搜狗拼音"
   * is one) whose id holds neither ITABC nor Pinyin. Toggling from the layout selects the CJK
   * source, and toggling from the CJK source selects it again: the toggle never returns to
   * the layout.
   */
  lemma NameOnlyCjkCurrentNeverReturnsToLatin(latin: InputSource, cjk: InputSource)
    requires IsEnglishCandidate(latin)
    requires IsChineseCandidate(cjk) && !IsCjkStyleId(cjk.id.value) && !IsPrimary(cjk)
    ensures ToggleDecision(Some(latin), [latin, cjk]) == SwitchTo(cjk)
    ensures ToggleDecision(Some(cjk), [latin, cjk]) == SwitchTo(cjk)
  {
    assert !IsCjkStyleId(latin.id.value);
    LatinCurrentSelectsFirstCandidate(latin, [latin, cjk], 1);
    LatinCurrentSelectsFirstCandidate(cjk, [latin, cjk], 1);
  }
}
