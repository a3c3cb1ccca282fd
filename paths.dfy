/**
 * The parts of a file name that `pathlib.PurePath` exposes: `suffix` and `stem`.
 */
module Paths {
  /** The position of the last `.` in a file name, or -1 (`str.rfind`). */
  function LastDot(name: string): (i: int)
    ensures -1 <= i < |name|
    ensures i >= 0 ==> name[i] == '.'
    ensures forall j :: i < j < |name| ==> name[j] != '.'
    decreases |name|
  {
    if name == [] then -1
    else if name[|name| - 1] == '.' then |name| - 1
    else LastDot(name[..|name| - 1])
  }

  /** `PurePath.suffix`: from the last dot on, unless the dot leads or ends the name. */
  function Suffix(name: string): (r: string)
    ensures r == [] || (r[0] == '.' && '.' !in r[1..] && |r| >= 2)
    ensures LastDot(name) <= 0 || LastDot(name) == |name| - 1 ==> r == ""
    ensures r != "" ==> |r| <= |name| && name[|name| - |r|..] == r && |r| < |name|
  {
    var i := LastDot(name);
    if 0 < i < |name| - 1 then name[i..] else ""
  }

  /** `PurePath.stem`: the name without its suffix. */
  function Stem(name: string): (r: string)
    ensures r + Suffix(name) == name
  {
    var i := LastDot(name);
    if 0 < i < |name| - 1 then name[..i] else name
  }

  /** A name made of a non-empty stem and an extension without dots splits back into the two. */
  lemma {:induction false} StemOfExtension(stem: string, ext: string)
    requires stem != [] && |ext| >= 1 && '.' !in ext
    ensures Stem(stem + "." + ext) == stem
    ensures Suffix(stem + "." + ext) == "." + ext
  {
    var name := stem + "." + ext;
    assert name[|stem|] == '.';
    forall j | |stem| < j < |name| ensures name[j] != '.' {
      assert name[j] == ext[j - |stem| - 1];
    }
    LastDotIs(name, |stem|);
    assert name[..|stem|] == stem;
  }

  /** The last dot is the one at `i` when no dot follows it. */
  lemma {:induction false} LastDotIs(name: string, i: nat)
    requires i < |name| && name[i] == '.'
    requires forall j :: i < j < |name| ==> name[j] != '.'
    ensures LastDot(name) == i
  {
  }
}
