/** The command-line helper of src/bssig/utils.py. */
module Utils {
  import opened Outcomes

  /** Blender passes everything after this token on to the script. */
  const Separator: string := "--"

  /** `list.index`: the first position holding `x`, or None where Python raises ValueError. */
  function IndexOf(s: seq<string>, x: string): (r: Option<nat>)
    ensures r.None? <==> x !in s
    ensures r.Some? ==> r.value < |s| && s[r.value] == x && x !in s[..r.value]
  {
    if s == [] then None
    else if s[0] == x then Some(0)
    else
      match IndexOf(s[1..], x)
      case None => None
      case Some(i) =>
        assert s[1..][..i] == s[1..i + 1];
        Some(i + 1)
  }

  /** `get_script_args`: the arguments after the first separator, none when there is no separator. */
  function GetScriptArgs(argv: seq<string>): (r: seq<string>)
    ensures |r| <= |argv| && r == argv[|argv| - |r|..]
    ensures Separator !in argv ==> r == []
    ensures Separator in argv ==>
      |r| < |argv| && argv[|argv| - |r| - 1] == Separator && Separator !in argv[..|argv| - |r| - 1]
  {
    var index := match IndexOf(argv, Separator)
      case Some(i) => i + 1
      case None => |argv|;
    argv[index..]
  }

  /** A separator after the first one is passed on to the script, not consumed. */
  lemma {:induction false} LaterSeparatorsKept(argv: seq<string>, j: nat)
    requires j < |argv| && argv[j] == Separator
    requires Separator in argv[..j]
    ensures Separator in GetScriptArgs(argv)
  {
    var r := GetScriptArgs(argv);
    var start := |argv| - |r|;
    assert r[j - start] == argv[j];
  }

  /** The arguments handed to the script are exactly those that follow the first separator. */
  lemma {:induction false} ScriptArgsFollowFirstSeparator(argv: seq<string>, i: nat)
    requires i < |argv| && argv[i] == Separator && Separator !in argv[..i]
    ensures GetScriptArgs(argv) == argv[i + 1..]
  {
    var r := GetScriptArgs(argv);
    var k := |argv| - |r| - 1;
    assert argv[k] == Separator;
  }
}
