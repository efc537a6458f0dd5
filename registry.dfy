/**
 * `get_registry_hive_from_name`: the hive a registry path in the
 * configuration starts from, named by its full or abbreviated name in any
 * letter case.
 */
module Registry {
  import opened Wrappers

  datatype Hive = HkeyCurrentUser | HkeyLocalMachine

  /**
   * Python's `str.upper` on one character, as far as the hive names can
   * tell: the ASCII lower-case letters, and the two other letters whose upper
   * case is an ASCII letter (dotless i and long s). Any other character is
   * kept; Python may change it, but never into text that can be part of one
   * of the four hive names.
   */
  function UpperChar(c: char): char
  {
    if 'a' <= c <= 'z' then (c as int - 'a' as int + 'A' as int) as char
    else if c == '\U{0131}' then 'I'
    else if c == '\U{017F}' then 'S'
    else c
  }

  /** `name.upper()`, character by character. */
  function Upper(s: string): (r: string)
    ensures |r| == |s|
    ensures forall i :: 0 <= i < |s| ==> r[i] == UpperChar(s[i])
  {
    if s == [] then [] else [UpperChar(s[0])] + Upper(s[1..])
  }

  /** The names the lookup accepts, in upper case. */
  const CurrentUserNames: set<string> := {"HKEY_CURRENT_USER", "HKCU"}
  const LocalMachineNames: set<string> := {"HKEY_LOCAL_MACHINE", "HKLM"}

  /** The text of the ValueError raised for an unknown name, before the name itself. */
  const UnknownHivePrefix: string := "\U{672A}\U{77E5}\U{306E}\U{30EC}\U{30B8}\U{30B9}\U{30C8}\U{30EA}\U{30CF}\U{30A4}\U{30D6}\U{540D}: "

  /** The lookup: the upper-cased name must be one of the four names; anything else is a ValueError naming it. */
  function HiveFromName(name: string): Result<Hive, string>
  {
    var n := Upper(name);
    if n in CurrentUserNames then Ok(HkeyCurrentUser)
    else if n in LocalMachineNames then Ok(HkeyLocalMachine)
    else Err(UnknownHivePrefix + name)
  }

  /** Two strings equal once both are upper-cased. */
  predicate SameIgnoringCase(a: string, b: string)
  {
    |a| == |b| && forall i :: 0 <= i < |a| ==> UpperChar(a[i]) == UpperChar(b[i])
  }

  /** A string whose characters are all upper case is its own upper case. */
  lemma {:induction false} UpperOfUpper(k: string)
    requires forall i :: 0 <= i < |k| ==> UpperChar(k[i]) == k[i]
    ensures Upper(k) == k
  {
    if k != [] {
      UpperOfUpper(k[1..]);
      assert [k[0]] + k[1..] == k;
    }
  }

  /** For a name in upper case, upper-casing a string yields it exactly when the string matches it ignoring case. */
  lemma UpperMatches(name: string, k: string)
    requires forall i :: 0 <= i < |k| ==> UpperChar(k[i]) == k[i]
    ensures Upper(name) == k <==> SameIgnoringCase(name, k)
  {
    UpperOfUpper(k);
    if SameIgnoringCase(name, k) {
      assert forall i :: 0 <= i < |k| ==> Upper(name)[i] == k[i];
    }
  }

  /**
   * The lookup, stated as a case-insensitive match: a name selects the
   * current-user hive exactly when it matches HKEY_CURRENT_USER or HKCU
   * ignoring case, the local-machine hive exactly when it matches
   * HKEY_LOCAL_MACHINE or HKLM, and is refused otherwise with an error that
   * quotes it.
   */
  lemma HiveFromNameCaseInsensitive(name: string)
    ensures HiveFromName(name) == Ok(HkeyCurrentUser)
            <==> SameIgnoringCase(name, "HKEY_CURRENT_USER") || SameIgnoringCase(name, "HKCU")
    ensures HiveFromName(name) == Ok(HkeyLocalMachine)
            <==> SameIgnoringCase(name, "HKEY_LOCAL_MACHINE") || SameIgnoringCase(name, "HKLM")
    ensures HiveFromName(name).Err? ==> HiveFromName(name).error == UnknownHivePrefix + name
  {
    UpperMatches(name, "HKEY_CURRENT_USER");
    UpperMatches(name, "HKCU");
    UpperMatches(name, "HKEY_LOCAL_MACHINE");
    UpperMatches(name, "HKLM");
  }

  /** Names that differ only in letter case select the same hive, or are both refused. */
  lemma HiveFromNameIgnoresCase(a: string, b: string)
    requires SameIgnoringCase(a, b)
    ensures HiveFromName(a).Ok? == HiveFromName(b).Ok?
    ensures HiveFromName(a).Ok? ==> HiveFromName(a).value == HiveFromName(b).value
  {
    assert Upper(a) == Upper(b);
  }

  /**
   * As in Python, a dotless i counts as I and a long s as S anywhere in a
   * name: swapping one for the other never changes which hive is selected.
   */
  lemma NonAsciiLettersCountAsAscii(a: string, b: string)
    ensures HiveFromName(a + "I" + b).Ok? == HiveFromName(a + ['\U{0131}'] + b).Ok?
    ensures HiveFromName(a + "I" + b).Ok? ==> HiveFromName(a + "I" + b).value == HiveFromName(a + ['\U{0131}'] + b).value
    ensures HiveFromName(a + "S" + b).Ok? == HiveFromName(a + ['\U{017F}'] + b).Ok?
    ensures HiveFromName(a + "S" + b).Ok? ==> HiveFromName(a + "S" + b).value == HiveFromName(a + ['\U{017F}'] + b).value
  {
    var withI, withDotless := a + "I" + b, a + ['\U{0131}'] + b;
    assert SameIgnoringCase(withI, withDotless) by {
      forall i | 0 <= i < |withI| ensures UpperChar(withI[i]) == UpperChar(withDotless[i]) {
        if i != |a| { assert withI[i] == withDotless[i]; }
      }
    }
    HiveFromNameIgnoresCase(withI, withDotless);
    var withS, withLong := a + "S" + b, a + ['\U{017F}'] + b;
    assert SameIgnoringCase(withS, withLong) by {
      forall i | 0 <= i < |withS| ensures UpperChar(withS[i]) == UpperChar(withLong[i]) {
        if i != |a| { assert withS[i] == withLong[i]; }
      }
    }
    HiveFromNameIgnoresCase(withS, withLong);
  }
}
