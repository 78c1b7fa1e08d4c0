/**
 * Sys_Print's filtering of console text: a leading "[skipnotify]" marker is
 * dropped, then a single leading '*', and the rest goes to the console.
 */
module SysPrint {

  const SkipNotify: string := "[skipnotify]"

  predicate HasPrefix(s: string, prefix: string)
  {
    |prefix| <= |s| && s[..|prefix|] == prefix
  }

  /** The text Sys_Print hands to the console buffer for message `msg`. */
  function PrintedText(msg: string): (r: string)
    ensures |r| <= |msg| && r == msg[|msg| - |r|..]
    ensures var cut := |msg| - |r|;
      (cut >= |SkipNotify| <==> HasPrefix(msg, SkipNotify))
      && (cut % |SkipNotify| == 1 <==>
          var rest := if HasPrefix(msg, SkipNotify) then msg[|SkipNotify|..] else msg;
          rest != [] && rest[0] == '*')
      && cut in {0, 1, |SkipNotify|, |SkipNotify| + 1}
  {
    var rest := if HasPrefix(msg, SkipNotify) then msg[|SkipNotify|..] else msg;
    if rest != [] && rest[0] == '*' then rest[1..] else rest
  }

  /** The marker is only recognised in front: a '*' before it hides it. */
  lemma StarThenMarkerKeepsMarker(body: string)
    ensures PrintedText("*" + SkipNotify + body) == SkipNotify + body
  {
    assert !HasPrefix("*" + SkipNotify + body, SkipNotify) by {
      assert ("*" + SkipNotify + body)[0] != SkipNotify[0];
    }
    assert ("*" + SkipNotify + body)[1..] == SkipNotify + body;
  }

  /** Both prefixes together are removed, and at most one '*' goes. */
  lemma MarkerThenStars(body: string)
    ensures PrintedText(SkipNotify + "**" + body) == "*" + body
  {
    var msg := SkipNotify + "**" + body;
    assert HasPrefix(msg, SkipNotify) by { assert msg[..|SkipNotify|] == SkipNotify; }
    assert msg[|SkipNotify|..] == "**" + body;
  }
}
