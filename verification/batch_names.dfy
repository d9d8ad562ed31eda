/** The file-name rule of the batch driver (main.cpp): which directory
    entries are processed, and the name of the intermediate smoothed file
    derived from each. Walking the directory is left out. */
module BatchNames {

  const DatSuffix: string := ".dat"
  const SmoothedSuffix: string := "_smoothed.dat"

  /** A directory entry is processed when its name is longer than four
      characters and its last four characters are `.dat`. */
  predicate IsDataFile(name: string)
  {
    |name| > 4 && name[|name| - 4..] == DatSuffix
  }

  /** The name without its last four characters. */
  function Stem(name: string): string
    requires |name| >= 4
  {
    name[..|name| - 4]
  }

  /** The intermediate file name: the stem followed by `_smoothed.dat`. It
      is nine characters longer than the data file's name, keeps its stem as
      a prefix, and is itself a data-file name. */
  function SmoothedName(name: string): (r: string)
    requires IsDataFile(name)
    ensures |r| == |name| + 9
    ensures r[..|name| - 4] == Stem(name) && r[|name| - 4..] == SmoothedSuffix
    ensures IsDataFile(r)
  {
    var r := Stem(name) + SmoothedSuffix;
    assert r[|r| - 4..] == DatSuffix;
    r
  }

  /** Recovers the data file's name from an intermediate file's name. */
  function OriginalName(smoothed: string): (r: string)
    requires |smoothed| >= |SmoothedSuffix|
    ensures |r| == |smoothed| - 9
  {
    smoothed[..|smoothed| - |SmoothedSuffix|] + DatSuffix
  }

  /** A selected name is recovered from its intermediate name. */
  lemma OriginalOfSmoothed(name: string)
    requires IsDataFile(name)
    ensures OriginalName(SmoothedName(name)) == name
  {
    var r := SmoothedName(name);
    assert r[..|r| - |SmoothedSuffix|] == Stem(name);
    assert name == Stem(name) + DatSuffix;
  }

  /** Distinct selected names give distinct intermediate names, so no two
      data files of one directory share an intermediate file. */
  lemma SmoothedNameInjective(a: string, b: string)
    requires IsDataFile(a) && IsDataFile(b) && a != b
    ensures SmoothedName(a) != SmoothedName(b)
  {
    OriginalOfSmoothed(a);
    OriginalOfSmoothed(b);
  }

  /** Selected names are exactly a non-empty stem followed by `.dat`: every
      selected name splits that way, ... */
  lemma SelectedIsStemAndSuffix(name: string)
    requires IsDataFile(name)
    ensures |Stem(name)| > 0 && name == Stem(name) + DatSuffix
  {
  }

  /** ... and every such name is selected. */
  lemma StemAndSuffixIsSelected(stem: string)
    requires |stem| > 0
    ensures IsDataFile(stem + DatSuffix) && Stem(stem + DatSuffix) == stem
  {
    var name := stem + DatSuffix;
    assert name[|name| - 4..] == DatSuffix;
  }

  /** A name that is only the suffix, or that ends otherwise, is skipped. */
  lemma Rejected()
    ensures !IsDataFile(DatSuffix)
    ensures !IsDataFile("trace.txt") && !IsDataFile("trace.dat.bak")
  {
    assert "trace.txt"[5..] != DatSuffix;
    assert "trace.dat.bak"[9..][1] != DatSuffix[1];
  }
}
