/**
 * Translation profiles and the profile switch shared by both bridges:
 * cycling the profile index and `update_translation`, which re-sends the
 * recognition language only when it changed and then the translation
 * parameters.
 *
 * Calls to the translation engine's HTTP API are recorded as `ApiCall`s;
 * their success or failure never changes the bridge's state.
 */
module Profiles {
  import opened Wrappers

  /** The recognition language the bridge assumes before any profile was applied. */
  const DefaultRecognitionLanguage: string := "ja"

  datatype TranslationParam = TranslationParam(slot: string, language: string, engine: string)

  /**
   * One entry of `translation_profiles`. A missing "recognition_language", or a
   * missing "translation_param" or one of its keys, is None (a KeyError).
   */
  datatype Profile = Profile(
    name: string,
    recognitionLanguage: Option<string>,
    translationParam: Option<TranslationParam>,
    xsoNotification: bool)

  /** The engine requests the bridge issues. */
  datatype ApiCall =
    | SetRecognitionParam(language: string)
    | SetTranslationParam(slot: string, language: string, engine: string)
    | MuteOn
    | MuteOff

  /** `xs[i]` as Python evaluates it: a negative index counts from the end; None is an IndexError. */
  function Subscript<T>(xs: seq<T>, i: int): (r: Option<T>)
    ensures r.Some? <==> -|xs| <= i < |xs|
  {
    if 0 <= i < |xs| then Some(xs[i])
    else if -|xs| <= i < 0 then Some(xs[|xs| + i])
    else None
  }

  /**
   * The profile after the current one, `(i + 1) % n`; None when there are no
   * profiles (the modulo raises ZeroDivisionError). Python's `%` with a
   * positive divisor agrees with Dafny's.
   */
  function NextIndex(i: int, n: nat): (r: Option<int>)
    ensures r.Some? <==> n > 0
    ensures r.Some? ==> 0 <= r.value < n
  {
    if n == 0 then None else Some((i + 1) % n)
  }

  /** The profile before the current one, `(i - 1) % n`, wrapping from 0 to n - 1. */
  function PreviousIndex(i: int, n: nat): (r: Option<int>)
    ensures r.Some? <==> n > 0
    ensures r.Some? ==> 0 <= r.value < n
    ensures r.Some? && i == 0 ==> r.value == n - 1
  {
    if n == 0 then None else Some((i - 1) % n)
  }

  /** Next and previous undo each other on every valid index. */
  lemma NextPreviousInverse(i: int, n: nat)
    requires 0 <= i < n
    ensures PreviousIndex(NextIndex(i, n).value, n) == Some(i)
    ensures NextIndex(PreviousIndex(i, n).value, n) == Some(i)
  {
    if i + 1 < n {
      ModUnique(i + 1, n, 0, i + 1);
      ModUnique(i, n, 0, i);
    } else {
      ModUnique(i + 1, n, 1, 0);
      ModUnique(-1, n, -1, n - 1);
    }
    if i > 0 {
      ModUnique(i - 1, n, 0, i - 1);
      ModUnique(i, n, 0, i);
    } else {
      ModUnique(i - 1, n, -1, n - 1);
      ModUnique(n, n, 1, 0);
    }
  }

  /** The index after pressing "next" k times from i. */
  function NextTimes(i: int, n: nat, k: nat): Option<int>
  {
    if k == 0 then Some(i)
    else match NextTimes(i, n, k - 1)
      case None => None
      case Some(j) => NextIndex(j, n)
  }

  /** Pressing "next" k times from a valid index lands on (i + k) % n: the cycle visits every profile. */
  lemma {:induction false} NextTimesIsOffset(i: int, n: nat, k: nat)
    requires 0 <= i < n
    ensures NextTimes(i, n, k) == Some((i + k) % n)
  {
    if k == 0 {
      ModUnique(i, n, 0, i);
    } else {
      NextTimesIsOffset(i, n, k - 1);
      ModSuccessor(i + k - 1, n);
    }
  }

  /** Taking the successor commutes with reduction modulo n. */
  lemma ModSuccessor(x: int, n: nat)
    requires n > 0
    ensures (x % n + 1) % n == (x + 1) % n
  {
    var q := x / n;
    assert x == q * n + x % n;
    if x % n + 1 < n {
      ModUnique(x + 1, n, q, x % n + 1);
      ModUnique(x % n + 1, n, 0, x % n + 1);
    } else {
      assert x + 1 == (q + 1) * n;
      ModUnique(x + 1, n, q + 1, 0);
      ModUnique(x % n + 1, n, 1, 0);
    }
  }

  lemma MulMonotonic(d: int, n: int)
    requires n > 0
    ensures d >= 1 ==> d * n >= n
    ensures d <= -1 ==> d * n <= -n
  {
    if d >= 1 {
      assert d * n == (d - 1) * n + n;
      assert (d - 1) * n >= 0;
    } else if d <= -1 {
      assert d * n == (d + 1) * n - n;
      assert (d + 1) * n <= 0;
    }
  }

  /** The remainder is determined by any quotient/remainder decomposition. */
  lemma ModUnique(x: int, n: int, q: int, r: int)
    requires n > 0 && 0 <= r < n && x == q * n + r
    ensures x % n == r
  {
    var q0, r0 := x / n, x % n;
    assert x == q0 * n + r0 && 0 <= r0 < n;
    var d := q0 - q;
    assert d * n == q0 * n - q * n;
    MulMonotonic(d, n);
  }

  /** The control-plane globals: profile index, mute flag, last recognition language sent. */
  datatype ControlState = ControlState(index: int, muted: bool, recognitionLanguage: string)

  /** The state after an operation and the engine requests it issued, in order. */
  datatype ControlStep = ControlStep(next: ControlState, calls: seq<ApiCall>)

  /**
   * `update_translation(config, index)`: look the profile up; send its
   * recognition language only when it differs from the last one sent and
   * record it; send its translation parameters; then adopt `index`. A lookup
   * error stops the update where it is raised.
   */
  function UpdateTranslationStep(profiles: seq<Profile>, s: ControlState, index: int): ControlStep
  {
    match Subscript(profiles, index)
    case None => ControlStep(s, [])
    case Some(p) =>
      match p.recognitionLanguage
      case None => ControlStep(s, [])
      case Some(lang) =>
        var recognition := if lang != s.recognitionLanguage then [SetRecognitionParam(lang)] else [];
        var s1 := s.(recognitionLanguage := lang);
        match p.translationParam
        case None => ControlStep(s1, recognition)
        case Some(tp) =>
          ControlStep(s1.(index := index), recognition + [SetTranslationParam(tp.slot, tp.language, tp.engine)])
  }

  /** The number of recognition-language requests among `calls`. */
  function RecognitionCalls(calls: seq<ApiCall>): nat
  {
    if calls == [] then 0
    else (if calls[0].SetRecognitionParam? then 1 else 0) + RecognitionCalls(calls[1..])
  }

  lemma {:induction false} RecognitionCallsAppend(a: seq<ApiCall>, b: seq<ApiCall>)
    ensures RecognitionCalls(a + b) == RecognitionCalls(a) + RecognitionCalls(b)
  {
    if a == [] {
      assert a + b == b;
    } else {
      assert (a + b)[1..] == a[1..] + b;
      RecognitionCallsAppend(a[1..], b);
    }
  }

  /**
   * The recognition API is called (once) exactly when the profile exists,
   * names a recognition language, and that language differs from the last one
   * sent; afterwards that language is the one recorded. The index is adopted
   * exactly when the profile lookup and all its keys succeed; the mute flag
   * never changes.
   */
  lemma UpdateTranslationContract(profiles: seq<Profile>, s: ControlState, index: int)
    ensures var r := UpdateTranslationStep(profiles, s, index);
      && RecognitionCalls(r.calls) == (
           if Subscript(profiles, index).Some?
              && Subscript(profiles, index).value.recognitionLanguage.Some?
              && Subscript(profiles, index).value.recognitionLanguage.value != s.recognitionLanguage
           then 1 else 0)
      && (Subscript(profiles, index).Some? && Subscript(profiles, index).value.recognitionLanguage.Some? ==>
            r.next.recognitionLanguage == Subscript(profiles, index).value.recognitionLanguage.value)
      && (r.next.index == if Subscript(profiles, index).Some?
                             && Subscript(profiles, index).value.recognitionLanguage.Some?
                             && Subscript(profiles, index).value.translationParam.Some?
                          then index else s.index)
      && r.next.muted == s.muted
  {
    var r := UpdateTranslationStep(profiles, s, index);
    match Subscript(profiles, index)
    case None =>
    case Some(p) =>
      match p.recognitionLanguage
      case None =>
      case Some(lang) =>
        var recognition := if lang != s.recognitionLanguage then [SetRecognitionParam(lang)] else [];
        assert RecognitionCalls(recognition) == if lang != s.recognitionLanguage then 1 else 0;
        match p.translationParam
        case None =>
        case Some(tp) =>
          var tail := [SetTranslationParam(tp.slot, tp.language, tp.engine)];
          RecognitionCallsAppend(recognition, tail);
          assert RecognitionCalls(tail) == 0;
  }

  /** Re-applying the profile just applied never re-sends the recognition language. */
  lemma RepeatedUpdateSkipsRecognition(profiles: seq<Profile>, s: ControlState, index: int)
    ensures RecognitionCalls(UpdateTranslationStep(profiles, UpdateTranslationStep(profiles, s, index).next, index).calls) == 0
  {
    UpdateTranslationContract(profiles, s, index);
    UpdateTranslationContract(profiles, UpdateTranslationStep(profiles, s, index).next, index);
  }
}
