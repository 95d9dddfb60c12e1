/**
 * The module template script (alxTpl.py): from a brief, a language ("c" or
 * "cpp"), a prefix and up to four name parts it composes the module's names
 * and chooses which template files to generate. Each generated file is
 * described by its template, its file name, its include guard and the type
 * name and brief it is filled with; the template text itself and the file
 * writes are not part of the model.
 *
 * Strings are ASCII: `upper`, `lower` and `capitalize` change only the
 * letters a to z and A to Z.
 */
module AlxTpl {
  import opened AlxCommon

  /** A script run either returns its value or raises. */
  datatype Result<T> = Done(value: T) | Raised

  // ---------------------------------------------------------------------
  // Case conversion
  // ---------------------------------------------------------------------

  predicate IsLower(c: char)
  {
    'a' <= c <= 'z'
  }

  predicate IsUpper(c: char)
  {
    'A' <= c <= 'Z'
  }

  function UpperChar(c: char): char
  {
    if IsLower(c) then (c as int - 32) as char else c
  }

  function LowerChar(c: char): char
  {
    if IsUpper(c) then (c as int + 32) as char else c
  }

  /** `str.upper()`. */
  function Upper(s: string): string
  {
    seq(|s|, i requires 0 <= i < |s| => UpperChar(s[i]))
  }

  /** `str.lower()`. */
  function Lower(s: string): string
  {
    seq(|s|, i requires 0 <= i < |s| => LowerChar(s[i]))
  }

  /** `str.capitalize()`: the first character upper case, the rest lower case. */
  function Capitalize(s: string): string
  {
    if |s| == 0 then "" else [UpperChar(s[0])] + Lower(s[1..])
  }

  /** No string has a lower-case letter once upper-cased; upper-casing twice changes nothing more. */
  lemma UpperIsUpper(s: string)
    ensures |Upper(s)| == |s|
    ensures forall i :: 0 <= i < |s| ==> !IsLower(Upper(s)[i])
    ensures Upper(Upper(s)) == Upper(s)
  {
  }

  /** Lower-casing then upper-casing is upper-casing. */
  lemma UpperOfLower(s: string)
    ensures Upper(Lower(s)) == Upper(s)
  {
  }

  /** A capitalised string starts with its first character upper-cased and has no other upper-case letter. */
  lemma CapitalizeShape(s: string)
    ensures |Capitalize(s)| == |s|
    ensures |s| > 0 ==> !IsLower(Capitalize(s)[0])
    ensures forall i :: 1 <= i < |s| ==> !IsUpper(Capitalize(s)[i])
  {
    if |s| > 0 {
      assert forall i :: 1 <= i < |s| ==> Capitalize(s)[i] == LowerChar(s[i]);
    }
  }

  /** Capitalising changes only the case: upper-cased, a capitalised string is the upper-cased original. */
  lemma UpperOfCapitalize(s: string)
    ensures Upper(Capitalize(s)) == Upper(s)
  {
    if |s| > 0 {
      var c := Capitalize(s);
      assert |c| == |s|;
      forall i | 0 <= i < |s|
        ensures Upper(c)[i] == Upper(s)[i]
      {
        if i > 0 {
          assert c[i] == LowerChar(s[i]);
        }
      }
    }
  }

  // ---------------------------------------------------------------------
  // Name composition
  // ---------------------------------------------------------------------

  /**
   * Script's name step: the upper-case name (parts joined with "_") and the
   * capitalised name (parts concatenated) for each filled prefix of the four
   * name parts; None where Script raises.
   */
  function ComposeNames(name1: string, name2: string, name3: string, name4: string): Option<(string, string)>
  {
    if name1 != "" && name2 == "" && name3 == "" && name4 == "" then
      Some((Upper(name1), Capitalize(name1)))
    else if name1 != "" && name2 != "" && name3 == "" && name4 == "" then
      Some((Upper(name1) + "_" + Upper(name2), Capitalize(name1) + Capitalize(name2)))
    else if name1 != "" && name2 != "" && name3 != "" && name4 == "" then
      Some((Upper(name1) + "_" + Upper(name2) + "_" + Upper(name3),
            Capitalize(name1) + Capitalize(name2) + Capitalize(name3)))
    else if name1 != "" && name2 != "" && name3 != "" && name4 != "" then
      Some((Upper(name1) + "_" + Upper(name2) + "_" + Upper(name3) + "_" + Upper(name4),
            Capitalize(name1) + Capitalize(name2) + Capitalize(name3) + Capitalize(name4)))
    else
      None
  }

  /** The name parts are a filled prefix: the first is not empty and no part after an empty one is filled. */
  ghost predicate IsFilledPrefix(names: seq<string>)
  {
    |names| > 0 && names[0] != ""
    && forall i, j :: 0 <= i < j < |names| && names[i] == "" ==> names[j] == ""
  }

  /** The name parts up to the first empty one. */
  function Filled(names: seq<string>): (r: seq<string>)
    ensures |r| <= |names| && r == names[..|r|]
    ensures forall i :: 0 <= i < |r| ==> r[i] != ""
    ensures |r| < |names| ==> names[|r|] == ""
  {
    if |names| == 0 || names[0] == "" then [] else [names[0]] + Filled(names[1..])
  }

  /** The parts upper-cased and joined with "_". */
  function JoinUpper(parts: seq<string>): string
  {
    if |parts| == 0 then ""
    else if |parts| == 1 then Upper(parts[0])
    else Upper(parts[0]) + "_" + JoinUpper(parts[1..])
  }

  /** The parts capitalised and concatenated. */
  function ConcatCapitalized(parts: seq<string>): string
  {
    if |parts| == 0 then "" else Capitalize(parts[0]) + ConcatCapitalized(parts[1..])
  }

  lemma Assoc(x: string, y: string, z: string)
    ensures x + (y + z) == x + y + z
  {
  }

  /** Unfolding Filled, JoinUpper and ConcatCapitalized at a first part followed by at least one more. */
  lemma Unfold(a: string, rest: seq<string>)
    requires |rest| > 0
    ensures a != "" ==> Filled([a] + rest) == [a] + Filled(rest)
    ensures JoinUpper([a] + rest) == Upper(a) + "_" + JoinUpper(rest)
    ensures ConcatCapitalized([a] + rest) == Capitalize(a) + ConcatCapitalized(rest)
  {
    assert ([a] + rest)[0] == a && ([a] + rest)[1..] == rest;
  }

  lemma JoinOne(a: string)
    ensures JoinUpper([a]) == Upper(a) && ConcatCapitalized([a]) == Capitalize(a)
  {
    assert [a][1..] == [] && Capitalize(a) + "" == Capitalize(a);
  }

  lemma JoinTwo(a: string, b: string)
    ensures JoinUpper([a, b]) == Upper(a) + "_" + Upper(b)
    ensures ConcatCapitalized([a, b]) == Capitalize(a) + Capitalize(b)
  {
    assert [a, b] == [a] + [b];
    Unfold(a, [b]);
    JoinOne(b);
  }

  lemma JoinThree(a: string, b: string, c: string)
    ensures JoinUpper([a, b, c]) == Upper(a) + "_" + Upper(b) + "_" + Upper(c)
    ensures ConcatCapitalized([a, b, c]) == Capitalize(a) + Capitalize(b) + Capitalize(c)
  {
    assert [a, b, c] == [a] + [b, c];
    Unfold(a, [b, c]);
    JoinTwo(b, c);
    Assoc(Upper(a) + "_", Upper(b) + "_", Upper(c));
    Assoc(Upper(a), "_", Upper(b) + "_");
    Assoc(Upper(a), "_", Upper(b) + "_" + Upper(c));
    Assoc(Upper(a) + "_", Upper(b), "_");
    Assoc(Capitalize(a), Capitalize(b), Capitalize(c));
  }

  lemma JoinFour(a: string, b: string, c: string, d: string)
    ensures JoinUpper([a, b, c, d]) == Upper(a) + "_" + Upper(b) + "_" + Upper(c) + "_" + Upper(d)
    ensures ConcatCapitalized([a, b, c, d]) == Capitalize(a) + Capitalize(b) + Capitalize(c) + Capitalize(d)
  {
    assert [a, b, c, d] == [a] + [b, c, d];
    Unfold(a, [b, c, d]);
    JoinThree(b, c, d);
    var x := Upper(a) + "_";
    var y := Upper(b) + "_" + Upper(c) + "_" + Upper(d);
    assert JoinUpper([a, b, c, d]) == x + y by {
      Assoc(Upper(a), "_", y);
    }
    assert x + y == Upper(a) + "_" + Upper(b) + "_" + Upper(c) + "_" + Upper(d) by {
      Assoc(x, Upper(b) + "_" + Upper(c) + "_", Upper(d));
      Assoc(x, Upper(b) + "_" + Upper(c), "_");
      Assoc(x, Upper(b) + "_", Upper(c));
      Assoc(x, Upper(b), "_");
    }
    var p := Capitalize(b) + Capitalize(c);
    Assoc(Capitalize(a), p, Capitalize(d));
    Assoc(Capitalize(a), Capitalize(b), Capitalize(c));
  }

  /** The filled parts of four names, case by case. */
  lemma FilledOfFour(name1: string, name2: string, name3: string, name4: string)
    ensures var f := Filled([name1, name2, name3, name4]);
            (name1 == "" ==> f == [])
            && (name1 != "" && name2 == "" ==> f == [name1])
            && (name1 != "" && name2 != "" && name3 == "" ==> f == [name1, name2])
            && (name1 != "" && name2 != "" && name3 != "" && name4 == "" ==> f == [name1, name2, name3])
            && (name1 != "" && name2 != "" && name3 != "" && name4 != "" ==> f == [name1, name2, name3, name4])
  {
    assert [name1, name2, name3, name4] == [name1] + [name2, name3, name4];
    assert [name2, name3, name4] == [name2] + [name3, name4];
    assert [name3, name4] == [name3] + [name4];
    Unfold(name1, [name2, name3, name4]);
    Unfold(name2, [name3, name4]);
    Unfold(name3, [name4]);
    assert [name4][1..] == [];
  }

  /** The name step succeeds exactly for a filled prefix of the four parts. */
  lemma ComposeNamesDefined(name1: string, name2: string, name3: string, name4: string)
    ensures ComposeNames(name1, name2, name3, name4).Some? <==> IsFilledPrefix([name1, name2, name3, name4])
  {
    var names := [name1, name2, name3, name4];
    assert names[0] == name1 && names[1] == name2 && names[2] == name3 && names[3] == name4;
  }

  /**
   * The name step succeeds exactly for a filled prefix of the four parts,
   * and then gives the upper-cased parts joined with "_" and the capitalised
   * parts concatenated.
   */
  lemma ComposeNamesSpec(name1: string, name2: string, name3: string, name4: string)
    ensures ComposeNames(name1, name2, name3, name4).Some? <==> IsFilledPrefix([name1, name2, name3, name4])
    ensures ComposeNames(name1, name2, name3, name4).Some? ==>
              var parts := Filled([name1, name2, name3, name4]);
              ComposeNames(name1, name2, name3, name4).value == (JoinUpper(parts), ConcatCapitalized(parts))
  {
    ComposeNamesDefined(name1, name2, name3, name4);
    FilledOfFour(name1, name2, name3, name4);
    if name1 != "" && name2 == "" && name3 == "" && name4 == "" {
      JoinOne(name1);
    } else if name1 != "" && name2 != "" && name3 == "" && name4 == "" {
      JoinTwo(name1, name2);
    } else if name1 != "" && name2 != "" && name3 != "" && name4 == "" {
      JoinThree(name1, name2, name3);
    } else if name1 != "" && name2 != "" && name3 != "" && name4 != "" {
      JoinFour(name1, name2, name3, name4);
    }
  }

  /** The upper-case name has no lower-case letter, so neither have the macros built from it. */
  lemma {:induction false} JoinUpperIsUpper(parts: seq<string>)
    ensures forall i :: 0 <= i < |JoinUpper(parts)| ==> !IsLower(JoinUpper(parts)[i])
  {
    if |parts| == 0 {
    } else if |parts| == 1 {
      UpperIsUpper(parts[0]);
    } else {
      UpperIsUpper(parts[0]);
      JoinUpperIsUpper(parts[1..]);
      var a := Upper(parts[0]);
      var b := JoinUpper(parts[1..]);
      assert JoinUpper(parts) == a + "_" + b;
      forall i | 0 <= i < |a + "_" + b|
        ensures !IsLower((a + "_" + b)[i])
      {
        if i < |a| {
          assert (a + "_" + b)[i] == a[i];
        } else if i == |a| {
          assert (a + "_" + b)[i] == '_';
        } else {
          assert (a + "_" + b)[i] == b[i - |a| - 1];
        }
      }
    }
  }

  // ---------------------------------------------------------------------
  // Generated files
  // ---------------------------------------------------------------------

  /** The six templates: the Alx library's own or a project's, for a C header, C source or C++ header. */
  datatype Template = AlxH | AlxC | ProjH | ProjC | AlxHpp | ProjHpp

  function Extension(t: Template): string
  {
    match t
    case AlxH => ".h"
    case ProjH => ".h"
    case AlxC => ".c"
    case ProjC => ".c"
    case AlxHpp => ".hpp"
    case ProjHpp => ".hpp"
  }

  /** A generated file: its template, file name, include guard (headers only), type name and brief. */
  datatype GenFile = GenFile(template: Template, path: string, guard: Option<string>, typeName: string, brief: string)

  /** One `_CreateFile…` call: the file is named prefixLow + nameCap + extension and a header is guarded by PREFIX_NAME_H(PP). */
  function CreateFile(t: Template, brief: string, prefixLow: string, prefixUp: string, prefixCap: string,
                      nameUp: string, nameCap: string): (f: GenFile)
    ensures f.path == prefixLow + nameCap + Extension(t)
    ensures f.guard.Some? <==> Extension(t) != ".c"
    ensures Extension(t) == ".h" ==> f.guard == Some(prefixUp + "_" + nameUp + "_H")
    ensures Extension(t) == ".hpp" ==> f.guard == Some(prefixUp + "_" + nameUp + "_HPP")
    ensures f.typeName == prefixCap + nameCap && f.brief == brief
  {
    var guard := match t
      case AlxH => Some(prefixUp + "_" + nameUp + "_H")
      case ProjH => Some(prefixUp + "_" + nameUp + "_H")
      case AlxHpp => Some(prefixUp + "_" + nameUp + "_HPP")
      case ProjHpp => Some(prefixUp + "_" + nameUp + "_HPP")
      case AlxC => None
      case ProjC => None;
    GenFile(t, prefixLow + nameCap + Extension(t), guard, prefixCap + nameCap, brief)
  }

  /** The templates Script uses for a language and a lower-cased prefix; None where it raises. */
  function Templates(cVsCpp: string, prefixLow: string): (r: Option<seq<Template>>)
    ensures r.Some? <==> cVsCpp == "c" || cVsCpp == "cpp"
    ensures cVsCpp == "c" ==> r.Some? && |r.value| == 2 && Extension(r.value[0]) == ".h" && Extension(r.value[1]) == ".c"
    ensures cVsCpp == "cpp" ==> r.Some? && |r.value| == 1 && Extension(r.value[0]) == ".hpp"
    ensures r.Some? ==> forall t :: t in r.value ==> (t in {AlxH, AlxC, AlxHpp} <==> prefixLow == "alx")
  {
    if cVsCpp == "c" then
      if prefixLow == "alx" then Some([AlxH, AlxC]) else Some([ProjH, ProjC])
    else if cVsCpp == "cpp" then
      if prefixLow == "alx" then Some([AlxHpp]) else Some([ProjHpp])
    else None
  }

  /** Script: compose the names, then generate the header and source ("c") or the C++ header ("cpp"). */
  function Script(brief: string, cVsCpp: string, prefix: string,
                  name1: string, name2: string, name3: string, name4: string): Result<seq<GenFile>>
  {
    match ComposeNames(name1, name2, name3, name4)
    case None => Raised
    case Some((nameUp, nameCap)) =>
      match Templates(cVsCpp, Lower(prefix))
      case None => Raised
      case Some(ts) =>
        Done(seq(|ts|, i requires 0 <= i < |ts| =>
          CreateFile(ts[i], brief, Lower(prefix), Upper(prefix), Capitalize(prefix), nameUp, nameCap)))
  }

  /**
   * Script raises unless the names are a filled prefix and the language is
   * "c" or "cpp"; otherwise it generates prefixLow + nameCap + ".h" and ".c",
   * or ".hpp", each header guarded by PREFIX_NAME_H or PREFIX_NAME_HPP with
   * no lower-case letter, and uses the Alx templates exactly for the prefix
   * "alx" in any case.
   */
  lemma ScriptSpec(brief: string, cVsCpp: string, prefix: string,
                   name1: string, name2: string, name3: string, name4: string)
    ensures var r := Script(brief, cVsCpp, prefix, name1, name2, name3, name4);
            r.Done? <==> IsFilledPrefix([name1, name2, name3, name4]) && (cVsCpp == "c" || cVsCpp == "cpp")
    ensures var r := Script(brief, cVsCpp, prefix, name1, name2, name3, name4);
            var parts := Filled([name1, name2, name3, name4]);
            var stem := Lower(prefix) + ConcatCapitalized(parts);
            var guard := Upper(prefix) + "_" + JoinUpper(parts);
            r.Done? ==>
              (cVsCpp == "c" ==> |r.value| == 2 && r.value[0].path == stem + ".h" && r.value[1].path == stem + ".c"
                                 && r.value[0].guard == Some(guard + "_H") && r.value[1].guard == None)
              && (cVsCpp == "cpp" ==> |r.value| == 1 && r.value[0].path == stem + ".hpp"
                                      && r.value[0].guard == Some(guard + "_HPP"))
              && (forall i :: 0 <= i < |r.value| ==>
                    r.value[i].brief == brief && r.value[i].typeName == Capitalize(prefix) + ConcatCapitalized(parts)
                    && (r.value[i].template in {AlxH, AlxC, AlxHpp} <==> Lower(prefix) == "alx"))
              && (forall i :: 0 <= i < |guard| ==> !IsLower(guard[i]))
  {
    var parts := Filled([name1, name2, name3, name4]);
    ComposeNamesSpec(name1, name2, name3, name4);
    JoinUpperIsUpper(parts);
    UpperIsUpper(prefix);
    var guard := Upper(prefix) + "_" + JoinUpper(parts);
    forall i | 0 <= i < |guard|
      ensures !IsLower(guard[i])
    {
      if i < |Upper(prefix)| {
        assert guard[i] == Upper(prefix)[i];
      } else if i == |Upper(prefix)| {
        assert guard[i] == '_';
      } else {
        assert guard[i] == JoinUpper(parts)[i - |Upper(prefix)| - 1];
      }
    }
  }

  // ---------------------------------------------------------------------
  // Command line
  // ---------------------------------------------------------------------

  /**
   * The script's `__main__` as written: argv[1] to argv[5] (language, prefix,
   * name1, name2, brief) are passed in that order to Script's first five
   * parameters, which are brief, language, prefix, name1 and name2. Fewer
   * than five arguments raise.
   */
  function MainAsWritten(argv: seq<string>): Result<seq<GenFile>>
  {
    if |argv| < 6 then Raised else Script(argv[1], argv[2], argv[3], argv[4], argv[5], "", "")
  }

  /** As written, the prefix argument is taken for the language: only a prefix spelt "c" or "cpp" gets past it. */
  lemma MainAsWrittenReadsPrefixAsLanguage(argv: seq<string>)
    ensures MainAsWritten(argv).Done? ==> |argv| >= 6 && (argv[2] == "c" || argv[2] == "cpp")
  {
    if |argv| >= 6 {
      ScriptSpec(argv[1], argv[2], argv[3], argv[4], argv[5], "", "");
    }
  }

  /** `alxTpl.py c alx Led "" "LED driver"` raises as written; passed by name it creates alxLed.h and alxLed.c. */
  lemma MainShiftExample()
    ensures MainAsWritten(["alxTpl.py", "c", "alx", "Led", "", "LED driver"]).Raised?
    ensures var r := Main(["alxTpl.py", "c", "alx", "Led", "", "LED driver"]);
            r.Done? && |r.value| == 2 && r.value[0].path == "alxLed.h" && r.value[1].path == "alxLed.c"
  {
    MainAsWrittenReadsPrefixAsLanguage(["alxTpl.py", "c", "alx", "Led", "", "LED driver"]);
    assert Lower("alx") == "alx";
    assert Capitalize("Led") == "Led" by {
      assert Lower("ed") == "ed";
    }
    assert ComposeNames("Led", "", "", "") == Some((Upper("Led"), "Led"));
  }

  /** The command line with each argument passed to the parameter it names. */
  function Main(argv: seq<string>): Result<seq<GenFile>>
  {
    if |argv| < 6 then Raised else Script(argv[5], argv[1], argv[2], argv[3], argv[4], "", "")
  }

  /**
   * With the arguments in place, the script runs exactly when there are five
   * arguments, the language is "c" or "cpp" and name1 is not empty, and the
   * files are named after the prefix and the one or two name parts, and
   * carry the brief.
   */
  lemma MainSpec(argv: seq<string>)
    ensures Main(argv).Done? <==> |argv| >= 6 && (argv[1] == "c" || argv[1] == "cpp") && argv[3] != ""
    ensures Main(argv).Done? ==>
              forall i :: 0 <= i < |Main(argv).value| ==>
                Main(argv).value[i].brief == argv[5]
                && Main(argv).value[i].path
                   == Lower(argv[2]) + Capitalize(argv[3]) + Capitalize(argv[4]) + Extension(Main(argv).value[i].template)
  {
    if |argv| >= 6 {
      var name1, name2 := argv[3], argv[4];
      var c := ComposeNames(name1, name2, "", "");
      assert c.Some? <==> name1 != "";
      if name1 != "" && name2 == "" {
        assert Capitalize(name2) == "";
        assert c.value.1 == Capitalize(name1) + Capitalize(name2);
      }
    }
  }
}
