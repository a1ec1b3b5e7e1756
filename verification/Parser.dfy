/** `parsing_input` of the mini shell. */
module Parser {
  import opened Lexer
  import opened Pipeline
  import opened TokenList

  const INIT_CMD := 2
  const NO_FD := -1

  /** A command as the parser stores it: its argument vector and an output descriptor or NO_FD. */
  datatype Cmd = Cmd(argv: seq<Arg>, fd: int)

  /** The file a descriptor was opened for: descriptor d stands for the d-th file opened. */
  function FileOf(fd: int, files: seq<string>): Option<string> {
    if 0 <= fd < |files| then Some(files[fd]) else None
  }

  predicate DescriptorOk(fd: int, redirect: Option<string>, files: seq<string>) {
    NO_FD <= fd < |files| && FileOf(fd, files) == redirect
  }

  predicate CmdOk(c: Cmd, seg: seq<Token>, files: seq<string>) {
    c.argv == Vector(Words(seg)) && DescriptorOk(c.fd, LastRedirect(seg), files)
  }

  // ----- descriptors -----

  /** The files opened so far, in order, and which of their descriptors have been closed. */
  class Descriptors {
    var files: seq<string>
    var closed: set<int>

    constructor ()
      ensures files == [] && closed == {}
    {
      files, closed := [], {};
    }

    method Open(name: string) returns (fd: int)
      modifies this
      ensures files == old(files) + [name] && closed == old(closed) && fd == |old(files)|
    {
      fd := |files|;
      files := files + [name];
    }

    method Close(fd: int)
      requires 0 <= fd < |files| && fd !in closed
      modifies this
      ensures files == old(files) && closed == old(closed) + {fd}
    {
      closed := closed + {fd};
    }
  }

  /** Descriptor fd belongs to a stored command or to the one being read. */
  ghost predicate Held(fd: int, cmds: seq<Cmd>, pending: int) {
    fd == pending || exists c :: 0 <= c < |cmds| && cmds[c].fd == fd
  }

  /** Every descriptor is open exactly as long as one command holds it. */
  ghost predicate NoLeak(files: seq<string>, closed: set<int>, cmds: seq<Cmd>, pending: int) {
    && NO_FD <= pending < |files|
    && (forall c :: 0 <= c < |cmds| ==> NO_FD <= cmds[c].fd < |files|)
    && (forall fd :: 0 <= fd < |files| ==> (fd !in closed <==> Held(fd, cmds, pending)))
    && (forall fd :: fd in closed ==> 0 <= fd < |files|)
    && (forall c, d :: 0 <= c < d < |cmds| && cmds[c].fd == cmds[d].fd ==> cmds[c].fd == NO_FD)
    && (forall c :: 0 <= c < |cmds| && cmds[c].fd == pending ==> pending == NO_FD)
  }

  // ----- the parser -----

  /** Empty: strtok found nothing (returns 0); EndLine: the line starts with END_LINE (returns 1, cmds
      not set); Failed: -1; Parsed: the number of commands. */
  datatype Outcome = Empty | EndLine | Failed | Parsed(cmds: seq<Cmd>)

  lemma LeakOpen(files: seq<string>, closed: set<int>, cmds: seq<Cmd>, pending: int, name: string)
    requires NoLeak(files, closed, cmds, pending)
    ensures NoLeak(files + [name], if pending > NO_FD then closed + {pending} else closed, cmds, |files|)
  {
    var closed' := if pending > NO_FD then closed + {pending} else closed;
    forall fd | 0 <= fd < |files + [name]| ensures fd !in closed' <==> Held(fd, cmds, |files|) {
      if fd < |files| {
        assert fd !in closed <==> Held(fd, cmds, pending);
      } else {
        assert fd !in closed;
      }
    }
  }

  lemma LeakPush(files: seq<string>, closed: set<int>, cmds: seq<Cmd>, pending: int, c: Cmd)
    requires NoLeak(files, closed, cmds, pending) && c.fd == pending
    ensures NoLeak(files, closed, cmds + [c], NO_FD)
  {
    var more := cmds + [c];
    forall fd | 0 <= fd < |files| ensures fd !in closed <==> Held(fd, more, NO_FD) {
      if Held(fd, cmds, pending) {
        if fd == pending {
          assert more[|cmds|].fd == fd;
        } else {
          var d :| 0 <= d < |cmds| && cmds[d].fd == fd;
          assert more[d].fd == fd;
        }
      }
    }
  }

  ghost predicate FirstBad(ts: seq<Token>, p: nat) {
    p < |ts| && BadAt(ts, p) && forall q :: 0 <= q < p ==> !BadAt(ts, q)
  }

  ghost predicate StoredOk(cmds: seq<Cmd>, done: seq<seq<Token>>, files: seq<string>) {
    && |cmds| == |done|
    && forall c :: 0 <= c < |cmds| ==> CmdOk(cmds[c], done[c], files)
  }

  /** The files opened before token i, one for each ">" so far. */
  ghost predicate Opened(ts: seq<Token>, i: nat, files: seq<string>) {
    && i <= |ts|
    && files == Targets(ts[..i])
    && (i > 0 ==> !ts[i - 1].Redirect?)
  }

  lemma OpenedOne(ts: seq<Token>, i: nat, files: seq<string>)
    requires Opened(ts, i, files) && i < |ts| && !ts[i].Redirect?
    ensures Opened(ts, i + 1, files)
  {
    assert ts[..i + 1] == ts[..i] + [ts[i]];
    TargetsSnoc(ts[..i], ts[i]);
  }

  lemma OpenedTwo(ts: seq<Token>, i: nat, files: seq<string>)
    requires Opened(ts, i, files) && i + 1 < |ts| && ts[i].Redirect? && ts[i + 1].Word?
    ensures Opened(ts, i + 2, files + [ts[i + 1].text])
  {
    assert ts[..i + 1] == ts[..i] + [ts[i]];
    TargetsSnoc(ts[..i], ts[i]);
    assert ts[..i + 2] == ts[..i + 1] + [ts[i + 1]];
    TargetsSnoc(ts[..i + 1], ts[i + 1]);
  }

  /** Before token i: what is stored are the commands of the stretches done; the words and the open descriptor
      are those of the last stretch, which does not end in ">". */
  ghost predicate Reading(ts: seq<Token>, i: nat, cmds: seq<Cmd>, words: seq<string>, fd: int, files: seq<string>) {
    && i <= |ts|
    && (forall p :: 0 <= p < i ==> !BadAt(ts, p))
    && (var cut := Cut(ts[..i]);
        && StoredOk(cmds, cut.done, files)
        && words == Words(cut.last)
        && DescriptorOk(fd, LastRedirect(cut.last), files)
        && (cut.last != [] ==> !Last(cut.last).Redirect?))
  }

  lemma ReadWord(ts: seq<Token>, i: nat, cmds: seq<Cmd>, words: seq<string>, fd: int, files: seq<string>)
    requires Reading(ts, i, cmds, words, fd, files) && i < |ts| && ts[i].Word?
    ensures Reading(ts, i + 1, cmds, words + [ts[i].text], fd, files)
  {
    var cut := Cut(ts[..i]);
    CutWord(ts, i);
    WordsSnoc(cut.last, ts[i]);
    assert Last(cut.last + [ts[i]]) == ts[i];
  }

  lemma ReadPipe(ts: seq<Token>, i: nat, cmds: seq<Cmd>, words: seq<string>, fd: int, files: seq<string>)
    requires Reading(ts, i, cmds, words, fd, files) && i < |ts| && ts[i].Pipe? && !BadAt(ts, i)
    ensures Reading(ts, i + 1, cmds + [Cmd(Vector(words), fd)], [], NO_FD, files)
  {
    assert ts[..i + 1] == ts[..i] + [ts[i]];
    CutSnoc(ts[..i], ts[i]);
  }

  lemma StoredMore(cmds: seq<Cmd>, done: seq<seq<Token>>, files: seq<string>, name: string)
    requires StoredOk(cmds, done, files)
    ensures StoredOk(cmds, done, files + [name])
  {
    forall c | 0 <= c < |cmds| ensures CmdOk(cmds[c], done[c], files + [name]) {
      assert CmdOk(cmds[c], done[c], files);
    }
  }

  lemma ReadRedirect(ts: seq<Token>, i: nat, cmds: seq<Cmd>, words: seq<string>, fd: int, files: seq<string>)
    requires Reading(ts, i, cmds, words, fd, files) && i < |ts| && ts[i].Redirect? && !BadAt(ts, i)
    ensures i + 1 < |ts| && ts[i + 1].Word? && Reading(ts, i + 2, cmds, words, |files|, files + [ts[i + 1].text])
  {
    var cut, name := Cut(ts[..i]), ts[i + 1];
    CutRedirect(ts, i);
    RedirectRead(cut.last, name);
    StoredMore(cmds, cut.done, files, name.text);
    assert Last(cut.last + [Redirect] + [name]) == name;
    assert FileOf(|files|, files + [name.text]) == Some(name.text);
    assert !BadAt(ts, i + 1);
  }

  /** new_cmds[counter++] = cmd, doubling the array when it is full. */
  method Push(newCmds: array<Cmd>, counter: nat, cmd: Cmd) returns (grown: array<Cmd>)
    requires counter < newCmds.Length
    modifies newCmds
    ensures grown == newCmds || fresh(grown)
    ensures counter + 1 < grown.Length
    ensures grown[..counter + 1] == old(newCmds[..counter]) + [cmd]
  {
    newCmds[counter] := cmd;
    grown := newCmds;
    if counter + 1 == newCmds.Length {
      grown := new Cmd[2 * newCmds.Length](k requires 0 <= k reads newCmds =>
        if k < newCmds.Length then newCmds[k] else Cmd([], NO_FD));
    }
  }

  /** cmds_destroy: closes the descriptor of every command. */
  method CmdsDestroy(cmds: seq<Cmd>, d: Descriptors, ghost pending: int)
    requires NoLeak(d.files, d.closed, cmds, pending)
    modifies d
    ensures d.files == old(d.files)
    ensures forall fd :: 0 <= fd < |d.files| ==> (fd !in d.closed <==> fd == pending)
  {
    for c := 0 to |cmds|
      invariant d.files == old(d.files)
      invariant NoLeak(d.files, d.closed, cmds[c..], pending)
    {
      assert cmds[c..][0] == cmds[c] && cmds[c..][1..] == cmds[c + 1..];
      LeakShut(d.files, d.closed, cmds[c..], pending);
      if cmds[c].fd > NO_FD {
        assert Held(cmds[c].fd, cmds[c..], pending);
        d.Close(cmds[c].fd);
      }
    }
  }

  lemma LeakShut(files: seq<string>, closed: set<int>, cmds: seq<Cmd>, pending: int)
    requires NoLeak(files, closed, cmds, pending) && cmds != []
    ensures NoLeak(files, if cmds[0].fd > NO_FD then closed + {cmds[0].fd} else closed, cmds[1..], pending)
  {
    var f := cmds[0].fd;
    var closed' := if f > NO_FD then closed + {f} else closed;
    forall fd | 0 <= fd < |files| ensures fd !in closed' <==> Held(fd, cmds[1..], pending) {
      assert fd !in closed <==> Held(fd, cmds, pending);
      if Held(fd, cmds, pending) && fd != pending && fd != f {
        var c :| 0 <= c < |cmds| && cmds[c].fd == fd;
        assert cmds[1..][c - 1].fd == fd;
      }
      assert forall c :: 0 <= c < |cmds[1..]| ==> cmds[1..][c] == cmds[c + 1];
    }
  }

  /** No descriptor is open, or just one of the named file. */
  ghost predicate OnlyOpen(redirect: Option<string>, files: seq<string>, closed: set<int>) {
    exists leaked: int ::
      DescriptorOk(leaked, redirect, files) && forall fd :: 0 <= fd < |files| ==> (fd !in closed <==> fd == leaked)
  }

  /** One command per stretch, each with the words and the redirection of its stretch and holding the only
      descriptor open for it. */
  ghost predicate Understood(cmds: seq<Cmd>, ts: seq<Token>, files: seq<string>, closed: set<int>) {
    && StoredOk(cmds, Cut(ts).done + [Cut(ts).last], files)
    && NoLeak(files, closed, cmds, NO_FD)
  }

  ghost predicate AllClosed(files: seq<string>, closed: set<int>) {
    forall fd :: 0 <= fd < |files| ==> fd in closed
  }

  /** Nothing leaks exactly when the command being read has no redirection yet. */
  lemma LeakIff(redirect: Option<string>, files: seq<string>, closed: set<int>)
    requires OnlyOpen(redirect, files, closed)
    ensures AllClosed(files, closed) <==> redirect.None?
  {
    var leaked: int :|
      DescriptorOk(leaked, redirect, files) && forall fd :: 0 <= fd < |files| ==> (fd !in closed <==> fd == leaked);
    assert redirect.Some? ==> 0 <= leaked < |files| && leaked !in closed;
    assert redirect.None? ==> leaked == NO_FD;
  }

  /** The line "> f | |" is refused at its first pipe, with the descriptor of f open. */
  lemma LeakExample()
    ensures var ts := [Redirect, Token.Word("f"), Pipe, Pipe];
            FirstBad(ts, 2) && LastRedirect(Cut(ts[..2]).last) == Some("f")
  {
    var ts := [Redirect, Token.Word("f"), Pipe, Pipe];
    assert ts[..0] == [];
    CutRedirect(ts, 0);
    RedirectRead([], Token.Word("f"));
  }

  // ----- the loop of parsing_input, branch by branch -----

  /** The state of the loop before token i. */
  ghost predicate Between(ts: seq<Token>, i: nat, list: List, newCmds: array<Cmd>, counter: nat, fd: int, d: Descriptors)
    reads list, list.nodes, newCmds, d
  {
    && list.Valid()
    && counter < newCmds.Length
    && Reading(ts, i, newCmds[..counter], list.Tokens(), fd, d.files)
    && NoLeak(d.files, d.closed, newCmds[..counter], fd)
    && Opened(ts, i, d.files)
  }

  /** cmd_make(list_to_cmd(list), fd) */
  method MakeCmd(list: List, fd: int) returns (cmd: Cmd)
    requires list.Valid()
    ensures cmd == Cmd(Vector(list.Tokens()), fd)
  {
    var argv := list.ToCmd();
    cmd := Cmd(if argv == null then [] else argv[..], fd);
    assert list.Tokens() == [] <==> list.nodes == [];
  }

  /** A plain token joins the list. */
  method AddWord(ts: seq<Token>, i: nat, list: List, newCmds: array<Cmd>, counter: nat, fd: int, d: Descriptors)
    requires Between(ts, i, list, newCmds, counter, fd, d)
    requires i < |ts| && ts[i].Word?
    modifies list, list.nodes
    ensures Between(ts, i + 1, list, newCmds, counter, fd, d)
    ensures forall k :: 0 <= k < |list.nodes| ==> list.nodes[k] in old(list.nodes) || fresh(list.nodes[k])
  {
    ReadWord(ts, i, newCmds[..counter], list.Tokens(), fd, d.files);
    OpenedOne(ts, i, d.files);
    list.Add(ts[i].text, TAIL);
  }

  /** ">" and a file name: closes the redirection the stretch already has, if any, and opens the new one. */
  method Reopen(ts: seq<Token>, i: nat, list: List, newCmds: array<Cmd>, counter: nat, redirectFd: int, d: Descriptors)
    returns (fd: int)
    requires Between(ts, i, list, newCmds, counter, redirectFd, d)
    requires i < |ts| && ts[i].Redirect? && !BadAt(ts, i)
    modifies d
    ensures i + 2 <= |ts| && Between(ts, i + 2, list, newCmds, counter, fd, d)
  {
    ghost var cmds := newCmds[..counter];
    ReadRedirect(ts, i, cmds, list.Tokens(), redirectFd, d.files);
    OpenedTwo(ts, i, d.files);
    LeakOpen(d.files, d.closed, cmds, redirectFd, ts[i + 1].text);
    if redirectFd > NO_FD {
      assert Held(redirectFd, cmds, redirectFd);
      d.Close(redirectFd);
    }
    fd := d.Open(ts[i + 1].text);
  }

  /** "|": stores the command read so far and empties the list. */
  method EndCommand(ts: seq<Token>, i: nat, list: List, newCmds: array<Cmd>, counter: nat, fd: int, d: Descriptors)
    returns (grown: array<Cmd>)
    requires Between(ts, i, list, newCmds, counter, fd, d)
    requires i < |ts| && ts[i].Pipe? && !BadAt(ts, i)
    modifies newCmds, list
    ensures grown == newCmds || fresh(grown)
    ensures list.nodes == [] && Between(ts, i + 1, list, grown, counter + 1, NO_FD, d)
  {
    ReadPipe(ts, i, newCmds[..counter], list.Tokens(), fd, d.files);
    OpenedOne(ts, i, d.files);
    var cmd := MakeCmd(list, fd);
    LeakPush(d.files, d.closed, newCmds[..counter], fd, cmd);
    grown := Push(newCmds, counter, cmd);
    ghost var freed := list.Destroy();
  }

  /** The end of the line: the last command is stored and the whole line is read. */
  method Finish(ts: seq<Token>, list: List, newCmds: array<Cmd>, counter: nat, fd: int, d: Descriptors)
    returns (cmds: seq<Cmd>)
    requires Between(ts, |ts|, list, newCmds, counter, fd, d)
    modifies newCmds
    ensures Understood(cmds, ts, d.files, d.closed) && !Bad(ts) && d.files == Targets(ts)
  {
    assert ts[..|ts|] == ts;
    var cmd := MakeCmd(list, fd);
    LeakPush(d.files, d.closed, newCmds[..counter], fd, cmd);
    newCmds[counter] := cmd;
    cmds := newCmds[..counter + 1];
    assert cmds == old(newCmds[..counter]) + [cmd];
  }

  /** An unexpected token: the commands stored so far are destroyed. */
  method Fail(ts: seq<Token>, i: nat, list: List, newCmds: array<Cmd>, counter: nat, fd: int, d: Descriptors)
    requires Between(ts, i, list, newCmds, counter, fd, d)
    requires i < |ts| && BadAt(ts, i)
    modifies d
    ensures FirstBad(ts, i) && Bad(ts) && d.files == Targets(ts[..i])
    ensures OnlyOpen(LastRedirect(Cut(ts[..i]).last), d.files, d.closed)
  {
    CmdsDestroy(newCmds[..counter], d, fd);
  }

  /** One turn of the loop. */
  method ReadToken(ts: seq<Token>, i: nat, list: List, newCmds: array<Cmd>, counter: nat, fd: int, d: Descriptors)
    returns (next: nat, grown: array<Cmd>, count: nat, redirectFd: int, status: int)
    requires i < |ts| && Between(ts, i, list, newCmds, counter, fd, d)
    modifies list, list.nodes, newCmds, d
    ensures Between(ts, next, list, grown, count, redirectFd, d)
    ensures grown == newCmds || fresh(grown)
    ensures forall k :: 0 <= k < |list.nodes| ==> list.nodes[k] in old(list.nodes) || fresh(list.nodes[k])
    ensures if status == 0 then i < next else status == 1 && next == i && BadAt(ts, i)
  {
    next, grown, count, redirectFd, status := i, newCmds, counter, fd, 0;
    if ts[i].Redirect? {
      if i + 1 == |ts| || ts[i + 1] == Pipe || ts[i + 1] == Redirect {
        status := 1;
      } else {
        redirectFd := Reopen(ts, i, list, newCmds, counter, fd, d);
        next := i + 2;
      }
    } else if ts[i].Pipe? {
      if i + 1 < |ts| && ts[i + 1].Pipe? {
        status := 1;
      } else {
        grown := EndCommand(ts, i, list, newCmds, counter, fd, d);
        count, redirectFd, next := counter + 1, NO_FD, i + 1;
      }
    } else {
      AddWord(ts, i, list, newCmds, counter, fd, d);
      next := i + 1;
    }
  }

  /** The loop: it stops at the end of the line or at the first token it does not expect. */
  method ReadTokens(ts: seq<Token>, list: List, d: Descriptors)
    returns (i: nat, newCmds: array<Cmd>, counter: nat, redirectFd: int, status: int)
    requires list.Valid() && list.nodes == [] && d.files == [] && d.closed == {}
    modifies list, d
    ensures fresh(newCmds) && Between(ts, i, list, newCmds, counter, redirectFd, d)
    ensures if status == 0 then i == |ts| else i < |ts| && BadAt(ts, i)
  {
    newCmds := new Cmd[INIT_CMD](_ => Cmd([], NO_FD));
    counter, redirectFd, status, i := 0, NO_FD, 0, 0;
    while i < |ts| && status == 0
      invariant fresh(newCmds) && fresh(list.nodes)
      invariant Between(ts, i, list, newCmds, counter, redirectFd, d)
      invariant status != 0 ==> i < |ts| && BadAt(ts, i)
      decreases |ts| - i, 1 - status
    {
      i, newCmds, counter, redirectFd, status := ReadToken(ts, i, list, newCmds, counter, redirectFd, d);
    }
  }

  /** The rest of parsing_input, on the tokens of a line that is neither empty nor END_LINE.  It fails exactly
      on the lines Bad describes; otherwise every descriptor still open belongs to exactly one command.  When it
      fails, the descriptors of the stored commands are closed, but the one of the stretch being read, if it had
      one, stays open. */
  method ParseTokens(ts: seq<Token>, d: Descriptors) returns (r: Outcome, ghost at: nat)
    requires d.files == [] && d.closed == {}
    modifies d
    ensures r.Failed? || r.Parsed?
    ensures r.Failed? ==> Bad(ts) && FirstBad(ts, at) && OnlyOpen(LastRedirect(Cut(ts[..at]).last), d.files, d.closed)
    ensures r.Failed? ==> (AllClosed(d.files, d.closed) <==> LastRedirect(Cut(ts[..at]).last).None?)
    ensures at <= |ts| && d.files == Targets(ts[..at])
    ensures r.Parsed? ==> at == |ts| && !Bad(ts) && Understood(r.cmds, ts, d.files, d.closed)
  {
    var list := new List();
    var i, newCmds, counter, redirectFd, status := ReadTokens(ts, list, d);
    at := i;
    if status != 0 {
      Fail(ts, i, list, newCmds, counter, redirectFd, d);
      LeakIff(LastRedirect(Cut(ts[..i]).last), d.files, d.closed);
      r := Failed;
    } else {
      var cmds := Finish(ts, list, newCmds, counter, redirectFd, d);
      r := Parsed(cmds);
    }
    ghost var freed := list.Destroy();
  }

  /** parsing_input */
  method ParsingInput(line: string, d: Descriptors) returns (r: Outcome, ghost at: nat)
    requires d.files == [] && d.closed == {}
    modifies d
    ensures r.Empty? <==> Split(line) == []
    ensures r.EndLine? <==> Split(line) != [] && Split(line)[0] == END_LINE
    ensures r.Failed? ==> Bad(Tokens(line)) && FirstBad(Tokens(line), at)
    ensures r.Failed? ==> OnlyOpen(LastRedirect(Cut(Tokens(line)[..at]).last), d.files, d.closed)
    ensures r.Failed? ==> (AllClosed(d.files, d.closed) <==> LastRedirect(Cut(Tokens(line)[..at]).last).None?)
    ensures r.Failed? ==> d.files == Targets(Tokens(line)[..at])
    ensures r.Parsed? ==> d.files == Targets(Tokens(line))
    ensures r.Parsed? ==> !Bad(Tokens(line)) && Understood(r.cmds, Tokens(line), d.files, d.closed)
  {
    var pieces := Split(line);
    if pieces == [] {
      r, at := Empty, 0;
    } else if pieces[0] == END_LINE {
      r, at := EndLine, 0;
    } else {
      var ts := Tokens(line);
      assert ts[..|ts|] == ts;
      r, at := ParseTokens(ts, d);
    }
  }

  predicate IsStage(cmd: Cmd, st: Stage, files: seq<string>) {
    cmd.argv == Vector(st.words) && DescriptorOk(cmd.fd, st.redirect, files)
  }

  predicate AreStages(cmds: seq<Cmd>, p: seq<Stage>, files: seq<string>) {
    && |cmds| == |p|
    && forall c :: 0 <= c < |p| ==> IsStage(cmds[c], p[c], files)
  }

  lemma StagesStored(cmds: seq<Cmd>, done: seq<seq<Token>>, p: seq<Stage>, files: seq<string>)
    requires StoredOk(cmds, done, files) && |p| == |done|
    requires forall c :: 0 <= c < |p| ==> MeansStage(done[c], p[c])
    ensures AreStages(cmds, p, files)
  {
    forall c | 0 <= c < |p| ensures IsStage(cmds[c], p[c], files) {
      assert CmdOk(cmds[c], done[c], files) && MeansStage(done[c], p[c]);
    }
  }

  lemma PrintedIsStored(p: seq<Stage>, cmds: seq<Cmd>, files: seq<string>)
    requires p != [] && StoredOk(cmds, Cut(Print(p)).done + [Cut(Print(p)).last], files)
    ensures AreStages(cmds, p, files)
  {
    PrintRoundTrip(p);
    StagesStored(cmds, Cut(Print(p)).done + [Cut(Print(p)).last], p, files);
  }

  /** A pipeline in text, with a delimiter after each token or only between them. */
  predicate Writes(line: string, p: seq<Stage>)
    requires p != []
  {
    && (forall t :: t in Print(p) ==> Writable(t))
    && (line == Line(Print(p)) || line == Typed(Print(p)))
  }

  lemma TokensOfWritten(p: seq<Stage>, line: string)
    requires p != [] && Writes(line, p)
    ensures Tokens(line) == Print(p)
  {
    TokensOfLine(Print(p));
    TokensOfTyped(Print(p));
  }

  /** A pipeline written out is refused exactly when some command but the first and the last is empty. */
  lemma PrintedIsRefusedIff(p: seq<Stage>, line: string)
    requires p != [] && Writes(line, p)
    ensures Bad(Tokens(line)) <==> exists c :: 0 < c < |p| - 1 && p[c] == Stage([], None)
  {
    TokensOfWritten(p, line);
    PrintRoundTrip(p);
  }

  /** A pipeline written out and read again comes back command by command. */
  lemma PrintedIsUnderstood(p: seq<Stage>, line: string, cmds: seq<Cmd>, files: seq<string>, closed: set<int>)
    requires p != [] && Writes(line, p)
    requires Understood(cmds, Tokens(line), files, closed)
    ensures AreStages(cmds, p, files)
  {
    TokensOfWritten(p, line);
    PrintedIsStored(p, cmds, files);
  }
}
