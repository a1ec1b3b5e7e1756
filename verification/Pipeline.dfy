/** What a line of the mini shell means, and when parsing_input refuses it. */
module Pipeline {
  import opened Lexer

  datatype Option<T> = None | Some(value: T)

  /** Token p starts what the parser must refuse: "| |", or ">" with no file name after it. */
  predicate BadAt(ts: seq<Token>, p: nat)
    requires p < |ts|
  {
    || (ts[p].Pipe? && p + 1 < |ts| && ts[p + 1].Pipe?)
    || (ts[p].Redirect? && (p + 1 == |ts| || !ts[p + 1].Word?))
  }

  predicate Bad(ts: seq<Token>) { exists p: nat :: p < |ts| && BadAt(ts, p) }

  function Last<T>(s: seq<T>): T
    requires s != []
  {
    s[|s| - 1]
  }

  /** A line cut at its pipes: the stretches that a pipe ends, and the last one. */
  datatype Stretches = Stretches(done: seq<seq<Token>>, last: seq<Token>)

  function Cut(ts: seq<Token>): Stretches {
    if ts == [] then Stretches([], [])
    else
      var before, t := Cut(ts[..|ts| - 1]), Last(ts);
      if t.Pipe? then Stretches(before.done + [before.last], []) else Stretches(before.done, before.last + [t])
  }

  /** The tokens of a stretch that are neither ">" nor the file name after it. */
  function Words(seg: seq<Token>): seq<string> {
    if seg == [] then []
    else
      var before, t := seg[..|seg| - 1], Last(seg);
      if !t.Word? || (before != [] && Last(before).Redirect?) then Words(before) else Words(before) + [t.text]
  }

  /** The file name after the last ">" of a stretch. */
  function LastRedirect(seg: seq<Token>): Option<string> {
    if |seg| < 2 then None
    else if seg[|seg| - 2].Redirect? && Last(seg).Word? then Some(Last(seg).text)
    else LastRedirect(seg[..|seg| - 1])
  }

  /** All the file names after a ">", in order. */
  function Targets(ts: seq<Token>): seq<string> {
    if |ts| < 2 then []
    else
      var before := Targets(ts[..|ts| - 1]);
      if ts[|ts| - 2].Redirect? && Last(ts).Word? then before + [Last(ts).text] else before
  }

  lemma TargetsSnoc(ts: seq<Token>, t: Token)
    ensures Targets(ts + [t]) ==
      if ts != [] && Last(ts).Redirect? && t.Word? then Targets(ts) + [t.text] else Targets(ts)
  {
    assert (ts + [t])[..|ts|] == ts;
  }

  lemma CutSnoc(ts: seq<Token>, t: Token)
    ensures var before := Cut(ts);
      Cut(ts + [t]) == if t.Pipe? then Stretches(before.done + [before.last], []) else Stretches(before.done, before.last + [t])
  {
    assert (ts + [t])[..|ts|] == ts;
  }

  lemma WordsSnoc(seg: seq<Token>, t: Token)
    ensures Words(seg + [t]) ==
      if !t.Word? || (seg != [] && Last(seg).Redirect?) then Words(seg) else Words(seg) + [t.text]
    ensures LastRedirect(seg + [t]) ==
      if seg != [] && Last(seg).Redirect? && t.Word? then Some(t.text) else LastRedirect(seg)
  {
    assert (seg + [t])[..|seg|] == seg;
  }

  lemma RedirectRead(seg: seq<Token>, name: Token)
    requires (seg != [] ==> !Last(seg).Redirect?) && name.Word?
    ensures Words(seg + [Redirect] + [name]) == Words(seg)
    ensures LastRedirect(seg + [Redirect] + [name]) == Some(name.text)
  {
    WordsSnoc(seg, Redirect);
    WordsSnoc(seg + [Redirect], name);
  }

  lemma CutWord(ts: seq<Token>, i: nat)
    requires i < |ts| && ts[i].Word?
    ensures Cut(ts[..i + 1]) == Stretches(Cut(ts[..i]).done, Cut(ts[..i]).last + [ts[i]])
  {
    assert ts[..i + 1] == ts[..i] + [ts[i]];
    CutSnoc(ts[..i], ts[i]);
  }

  lemma CutRedirect(ts: seq<Token>, i: nat)
    requires i + 1 < |ts| && ts[i].Redirect? && ts[i + 1].Word?
    ensures Cut(ts[..i + 2]) == Stretches(Cut(ts[..i]).done, Cut(ts[..i]).last + [Redirect] + [ts[i + 1]])
  {
    assert ts[..i + 1] == ts[..i] + [Redirect];
    CutSnoc(ts[..i], Redirect);
    assert ts[..i + 2] == ts[..i + 1] + [ts[i + 1]];
    CutSnoc(ts[..i + 1], ts[i + 1]);
  }

  // ----- the stretches are the line cut at its pipes -----

  predicate PipeFree(seg: seq<Token>) { Pipe !in seg }

  predicate AllPipeFree(s: Stretches) { PipeFree(s.last) && forall c :: 0 <= c < |s.done| ==> PipeFree(s.done[c]) }

  function Joined(done: seq<seq<Token>>, last: seq<Token>): seq<Token> {
    if done == [] then last else Joined(done[..|done| - 1], Last(done)) + [Pipe] + last
  }

  function Pipes(ts: seq<Token>): nat {
    if ts == [] then 0 else Pipes(ts[..|ts| - 1]) + if Last(ts).Pipe? then 1 else 0
  }

  /** Cutting loses nothing, leaves no pipe in a stretch, and one stretch is done for each pipe. */
  lemma {:induction false} CutJoined(ts: seq<Token>)
    ensures Joined(Cut(ts).done, Cut(ts).last) == ts
    ensures |Cut(ts).done| == Pipes(ts)
    ensures AllPipeFree(Cut(ts))
  {
    if ts != [] {
      var init, t := ts[..|ts| - 1], Last(ts);
      var before := Cut(init);
      CutJoined(init);
      assert ts == init + [t];
      if t.Pipe? {
        assert (before.done + [before.last])[..|before.done|] == before.done;
      } else if before.done != [] {
        var front := Joined(before.done[..|before.done| - 1], Last(before.done)) + [Pipe];
        assert front + before.last + [t] == front + (before.last + [t]);
      }
    }
  }

  lemma {:induction false} CutAppend(ts: seq<Token>, seg: seq<Token>)
    requires PipeFree(seg)
    ensures Cut(ts + seg) == Stretches(Cut(ts).done, Cut(ts).last + seg)
  {
    if seg == [] {
      assert ts + seg == ts && Cut(ts).last + seg == Cut(ts).last;
    } else {
      var init, t := seg[..|seg| - 1], Last(seg);
      assert seg == init + [t] && t in seg;
      CutAppend(ts, init);
      assert ts + seg == (ts + init) + [t];
      CutSnoc(ts + init, t);
      assert Cut(ts).last + init + [t] == Cut(ts).last + seg;
    }
  }

  /** The only way to cut a line at its pipes is Cut. */
  lemma {:induction false} CutUnique(done: seq<seq<Token>>, last: seq<Token>)
    requires AllPipeFree(Stretches(done, last))
    ensures Cut(Joined(done, last)) == Stretches(done, last)
  {
    if done == [] {
      CutAppend([], last);
      assert [] + last == last;
    } else {
      var init := done[..|done| - 1];
      var before := Joined(init, Last(done));
      CutUnique(init, Last(done));
      CutSnoc(before, Pipe);
      CutAppend(before + [Pipe], last);
      assert init + [Last(done)] == done && [] + last == last;
    }
  }

  // ----- when a line is refused, stretch by stretch -----

  /** Some ">" of the stretch has no file name after it. */
  predicate Dangling(seg: seq<Token>) {
    exists j :: 0 <= j < |seg| && seg[j].Redirect? && (j + 1 == |seg| || !seg[j + 1].Word?)
  }

  predicate EmptyInside(done: seq<seq<Token>>) { exists c :: 0 < c < |done| && done[c] == [] }

  predicate SomeDangling(done: seq<seq<Token>>) { exists c :: 0 <= c < |done| && Dangling(done[c]) }

  lemma BadPipeFree(seg: seq<Token>)
    requires PipeFree(seg)
    ensures Bad(seg) <==> Dangling(seg)
  {
    if Bad(seg) {
      var p: nat :| p < |seg| && BadAt(seg, p);
      assert seg[p] in seg;
    }
    if Dangling(seg) {
      var j :| 0 <= j < |seg| && seg[j].Redirect? && (j + 1 == |seg| || !seg[j + 1].Word?);
      assert BadAt(seg, j);
    }
  }

  lemma BadPipe(a: seq<Token>, b: seq<Token>)
    requires PipeFree(b)
    ensures Bad(a + [Pipe] + b) <==> Bad(a) || (a != [] && Last(a).Pipe?) || Bad(b)
  {
    var ts := a + [Pipe] + b;
    assert b == [] || b[0] in b;
    if Bad(ts) {
      var p: nat :| p < |ts| && BadAt(ts, p);
      if p < |a| {
        assert BadAt(a, p) || (p == |a| - 1 && Last(a).Pipe?);
      } else if p > |a| {
        assert BadAt(b, p - |a| - 1);
      }
    }
    if Bad(a) {
      var p: nat :| p < |a| && BadAt(a, p);
      assert BadAt(ts, p);
    }
    if a != [] && Last(a).Pipe? {
      assert BadAt(ts, |a| - 1);
    }
    if Bad(b) {
      var p: nat :| p < |b| && BadAt(b, p);
      assert BadAt(ts, |a| + 1 + p);
    }
  }

  lemma JoinedEndsInPipe(done: seq<seq<Token>>, last: seq<Token>)
    requires PipeFree(last)
    ensures Joined(done, last) != [] && Last(Joined(done, last)).Pipe? <==> done != [] && last == []
  {
    if last != [] {
      assert Last(last) in last;
      assert Last(Joined(done, last)) == Last(last);
    }
  }

  lemma DoneSnoc(init: seq<seq<Token>>, seg: seq<Token>)
    ensures SomeDangling(init + [seg]) <==> SomeDangling(init) || Dangling(seg)
    ensures EmptyInside(init + [seg]) <==> EmptyInside(init) || (init != [] && seg == [])
  {
    var all := init + [seg];
    assert all[|init|] == seg;
    assert forall c :: 0 <= c < |init| ==> all[c] == init[c];
  }

  lemma {:induction false} BadJoined(done: seq<seq<Token>>, last: seq<Token>)
    requires AllPipeFree(Stretches(done, last))
    ensures Bad(Joined(done, last)) <==> EmptyInside(done) || SomeDangling(done) || Dangling(last)
  {
    BadPipeFree(last);
    if done != [] {
      var init := done[..|done| - 1];
      BadJoined(init, Last(done));
      BadPipe(Joined(init, Last(done)), last);
      JoinedEndsInPipe(init, Last(done));
      DoneSnoc(init, Last(done));
      assert init + [Last(done)] == done;
    }
  }

  /** A line is refused exactly when a command between two pipes is empty or a ">" of a stretch has no file. */
  lemma BadIff(ts: seq<Token>)
    ensures Bad(ts) <==> EmptyInside(Cut(ts).done) || SomeDangling(Cut(ts).done) || Dangling(Cut(ts).last)
  {
    CutJoined(ts);
    BadJoined(Cut(ts).done, Cut(ts).last);
  }

  // ----- printing a pipeline -----

  /** A command with its output redirection, if any. */
  datatype Stage = Stage(words: seq<string>, redirect: Option<string>)

  function Lifted(words: seq<string>): seq<Token> {
    seq(|words|, i requires 0 <= i < |words| => Word(words[i]))
  }

  function PrintStage(st: Stage): seq<Token> {
    Lifted(st.words) + if st.redirect.None? then [] else [Redirect, Word(st.redirect.value)]
  }

  function Printed(p: seq<Stage>): seq<seq<Token>> {
    seq(|p|, i requires 0 <= i < |p| => PrintStage(p[i]))
  }

  function Print(p: seq<Stage>): seq<Token>
    requires p != []
  {
    Joined(Printed(p[..|p| - 1]), PrintStage(Last(p)))
  }

  lemma {:induction false} WordsOnly(words: seq<string>)
    ensures Words(Lifted(words)) == words && LastRedirect(Lifted(words)) == None
  {
    if words != [] {
      var init := words[..|words| - 1];
      WordsOnly(init);
      assert Lifted(words) == Lifted(init) + [Word(Last(words))];
      WordsSnoc(Lifted(init), Word(Last(words)));
    }
  }

  lemma StageRead(st: Stage)
    ensures Words(PrintStage(st)) == st.words && LastRedirect(PrintStage(st)) == st.redirect
    ensures PipeFree(PrintStage(st)) && !Dangling(PrintStage(st))
  {
    var ws := Lifted(st.words);
    WordsOnly(st.words);
    if st.redirect.Some? {
      RedirectRead(ws, Word(st.redirect.value));
      assert PrintStage(st) == ws + [Redirect] + [Word(st.redirect.value)];
    } else {
      assert PrintStage(st) == ws;
    }
  }

  predicate MeansStage(seg: seq<Token>, st: Stage) { Words(seg) == st.words && LastRedirect(seg) == st.redirect }

  /** Reading a printed pipeline gives it back: as many stretches, each with the words and the redirection of
      its command; and the line is refused exactly when some command but the first and the last is empty. */
  lemma PrintRoundTrip(p: seq<Stage>)
    requires p != []
    ensures |Cut(Print(p)).done| == |p| - 1
    ensures forall c :: 0 <= c < |p| - 1 ==> MeansStage(Cut(Print(p)).done[c], p[c])
    ensures MeansStage(Cut(Print(p)).last, Last(p))
    ensures Bad(Print(p)) <==> exists c :: 0 < c < |p| - 1 && p[c] == Stage([], None)
  {
    var done, last := Printed(p[..|p| - 1]), PrintStage(Last(p));
    forall c | 0 <= c < |p| - 1
      ensures PipeFree(done[c]) && !Dangling(done[c]) && (done[c] == [] <==> p[c] == Stage([], None))
      ensures MeansStage(done[c], p[c])
    {
      StageRead(p[c]);
    }
    StageRead(Last(p));
    CutUnique(done, last);
    BadJoined(done, last);
  }
}
