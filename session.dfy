/**
 * What the configuration back ends share: the router record they are given,
 * the interactive shell they drive, the audit collections they append to,
 * and the three ways they read from a shell — waiting for the first prompt,
 * sending commands one by one until a reply is rejected, and draining
 * whatever output is ready. Also the parser of "show ip interface brief".
 *
 * The network is a parameter. What `ssh.connect` and `invoke_shell` do is
 * given as a `Link`: either the shell opens, showing some chunks of text
 * first and answering every write through `respond`, or the connection
 * fails with a message. The reply to a write may depend on everything
 * written before it, as a router's mode does. Timing is left out: a reply is
 * ready as soon as its command is written.
 */
module Session {
  import opened Wrappers
  import opened Text

  /** A router record of the inventory; `enablePassword` is the optional "enable_password" key. */
  datatype Router = Router(name: string, ip: string, username: string, password: string, enablePassword: Option<string>)

  /** What opening an interactive shell on a router comes to. */
  datatype Link =
    | Up(banner: seq<string>, respond: (seq<string>, string) -> string)
    | Down(message: string)

  /** The text of the timeout a blocking `recv` raises: `socket.timeout()` carries none. */
  const TimeoutMessage := ""

  /** The test of the initial reading loops: the text read so far ends with a prompt character. */
  predicate EndsWithPrompt(s: string) {
    EndsWith(s, "#") || EndsWith(s, ">")
  }

  /** An interactive shell: the chunks received and not yet read, everything written, and the device's answers. */
  class Shell {
    var incoming: seq<string>
    var sent: seq<string>
    var open: bool
    const respond: (seq<string>, string) -> string

    constructor (banner: seq<string>, respond: (seq<string>, string) -> string)
      ensures incoming == banner && sent == [] && open && this.respond == respond
    {
      incoming := banner;
      sent := [];
      open := true;
      this.respond := respond;
    }

    /** `recv_ready()`. */
    predicate Ready()
      reads this
    {
      incoming != []
    }

    /** `send(data)`: the data is written and the device's reply queued. */
    method Send(data: string)
      modifies this
      ensures sent == old(sent) + [data]
      ensures incoming == old(incoming) + [respond(old(sent), data)]
      ensures open == old(open)
    {
      incoming := incoming + [respond(sent, data)];
      sent := sent + [data];
    }

    /** A `recv` with a large buffer: everything received so far, in order. */
    method Recv() returns (text: string)
      modifies this
      ensures text == Concat(old(incoming)) && incoming == []
      ensures sent == old(sent) && open == old(open)
    {
      text := Concat(incoming);
      incoming := [];
    }

    /** A `recv` with a small buffer: one chunk, or nothing when none has arrived (a timeout). */
    method RecvChunk() returns (r: Option<string>)
      modifies this
      ensures old(incoming) == [] ==> r == None && incoming == []
      ensures old(incoming) != [] ==> r == Some(old(incoming)[0]) && incoming == old(incoming)[1..]
      ensures sent == old(sent) && open == old(open)
    {
      if incoming == [] {
        r := None;
      } else {
        r := Some(incoming[0]);
        incoming := incoming[1..];
      }
    }

    /** `close()`. */
    method Close()
      modifies this
      ensures !open && incoming == old(incoming) && sent == old(sent)
    {
      open := false;
    }
  }

  /** An append-only audit collection (`insert_one` on a log collection). */
  class Log<T> {
    var entries: seq<T>

    constructor ()
      ensures entries == []
    {
      entries := [];
    }

    method Append(entry: T)
      modifies this
      ensures entries == old(entries) + [entry]
    {
      entries := entries + [entry];
    }
  }

  // ---------------------------------------------------------------------
  // Waiting for the first prompt

  /**
   * How many more chunks the initial loop reads, having read `acc`, before
   * the text ends with a prompt character; `None` when the chunks run out
   * first and the next `recv` times out.
   */
  function PromptAfter(acc: string, chunks: seq<string>): (r: Option<nat>)
    ensures r.Some? ==> r.value <= |chunks| && EndsWithPrompt(acc + Concat(chunks[..r.value]))
    ensures r.Some? ==> forall k | 0 <= k < r.value :: !EndsWithPrompt(acc + Concat(chunks[..k]))
    ensures r.None? ==> forall k | 0 <= k <= |chunks| :: !EndsWithPrompt(acc + Concat(chunks[..k]))
    decreases |chunks|
  {
    if EndsWithPrompt(acc) then
      assert acc + Concat(chunks[..0]) == acc;
      Some(0)
    else if chunks == [] then
      assert acc + Concat(chunks[..0]) == acc;
      None
    else
      var rest := PromptAfter(acc + chunks[0], chunks[1..]);
      PromptAfterLift(acc, chunks, rest);
      Shift(rest, 1)
  }

  /** What is known of the rest of the chunks, read after the first, told of all of them. */
  lemma PromptAfterLift(acc: string, chunks: seq<string>, r: Option<nat>)
    requires !EndsWithPrompt(acc) && chunks != []
    requires r.Some? ==> r.value <= |chunks| - 1 && EndsWithPrompt((acc + chunks[0]) + Concat(chunks[1..][..r.value]))
    requires r.Some? ==> forall k | 0 <= k < r.value :: !EndsWithPrompt((acc + chunks[0]) + Concat(chunks[1..][..k]))
    requires r.None? ==> forall k | 0 <= k <= |chunks| - 1 :: !EndsWithPrompt((acc + chunks[0]) + Concat(chunks[1..][..k]))
    ensures var s := Shift(r, 1);
      && (s.Some? ==> s.value <= |chunks| && EndsWithPrompt(acc + Concat(chunks[..s.value])))
      && (s.Some? ==> forall k | 0 <= k < s.value :: !EndsWithPrompt(acc + Concat(chunks[..k])))
      && (s.None? ==> forall k | 0 <= k <= |chunks| :: !EndsWithPrompt(acc + Concat(chunks[..k])))
  {
    var n := if r.Some? then r.value + 1 else |chunks| + 1;
    forall k | 0 <= k < n
      ensures !EndsWithPrompt(acc + Concat(chunks[..k]))
    {
      if k == 0 {
        assert acc + Concat(chunks[..0]) == acc;
      } else {
        ConcatHead(acc, chunks, k);
      }
    }
    if r.Some? {
      ConcatHead(acc, chunks, r.value + 1);
    }
  }

  lemma ConcatHead(acc: string, chunks: seq<string>, k: nat)
    requires 1 <= k <= |chunks|
    ensures acc + Concat(chunks[..k]) == (acc + chunks[0]) + Concat(chunks[1..][..k - 1])
  {
    assert chunks[..k] == [chunks[0]] + chunks[1..][..k - 1];
    assert Concat(chunks[..k]) == chunks[0] + Concat(chunks[1..][..k - 1]);
  }

  /** One more chunk read by the initial loop, the text so far showing no prompt. */
  lemma PromptAfterStep(acc: string, chunks: seq<string>, k: nat)
    requires !EndsWithPrompt(acc) && chunks != []
    ensures Shift(PromptAfter(acc, chunks), k) == Shift(PromptAfter(acc + chunks[0], chunks[1..]), k + 1)
  {
  }

  /** What the initial loop comes to on a fresh shell: the text read and the chunks left, or the timeout. */
  function Opening(banner: seq<string>): (r: Result<(string, seq<string>)>)
    ensures r.Ok? <==> PromptAfter("", banner).Some?
    ensures r.Ok? ==> EndsWithPrompt(r.value.0) && r.value.0 + Concat(r.value.1) == Concat(banner)
    ensures r.Err? ==> r.message == TimeoutMessage
  {
    match PromptAfter("", banner)
    case Some(n) =>
      ConcatSplit(banner, n);
      Ok((Concat(banner[..n]), banner[n..]))
    case None => Err(TimeoutMessage)
  }

  lemma {:induction false} ConcatSplit(chunks: seq<string>, n: nat)
    requires n <= |chunks|
    ensures Concat(chunks[..n]) + Concat(chunks[n..]) == Concat(chunks)
    decreases n
  {
    if n > 0 {
      ConcatSplit(chunks[1..], n - 1);
      assert chunks[..n] == [chunks[0]] + chunks[1..][..n - 1];
      assert chunks[1..][n - 1..] == chunks[n..];
    } else {
      assert chunks[..0] == [] && chunks[0..] == chunks;
    }
  }

  /** `while not output.endswith(('#', '>')): output += chan.recv(1024).decode()`, on a shell nothing was written to. */
  method WaitForPrompt(shell: Shell) returns (r: Result<string>)
    modifies shell
    ensures var o := Opening(old(shell.incoming));
      && (r.Ok? <==> o.Ok?)
      && (r.Ok? ==> r.value == o.value.0 && shell.incoming == o.value.1)
      && (r.Err? ==> r.message == TimeoutMessage)
    ensures shell.sent == old(shell.sent) && shell.open == old(shell.open)
  {
    ghost var q0 := shell.incoming;
    ghost var k := 0;
    var output := "";
    assert q0[..0] == [];
    while !EndsWithPrompt(output)
      invariant k <= |q0| && shell.incoming == q0[k..] && output == Concat(q0[..k])
      invariant shell.sent == old(shell.sent) && shell.open == old(shell.open)
      invariant PromptAfter("", q0) == Shift(PromptAfter(output, shell.incoming), k)
      decreases |shell.incoming|
    {
      var chunk := shell.RecvChunk();
      if chunk.None? {
        return Err(TimeoutMessage);
      }
      PromptAfterStep(output, q0[k..], k);
      ReadOneMore(q0, k);
      output := output + chunk.value;
      k := k + 1;
    }
    assert PromptAfter(output, shell.incoming) == Some(0);
    return Ok(output);
  }

  /** Reading chunk `k` of `q0` after the ones before it. */
  lemma ReadOneMore(q0: seq<string>, k: nat)
    requires k < |q0|
    ensures Concat(q0[..k + 1]) == Concat(q0[..k]) + q0[k]
    ensures q0[k + 1..] == q0[k..][1..] && q0[k..][0] == q0[k]
  {
    assert q0[..k + 1] == q0[..k] + [q0[k]];
    ConcatAppend(q0[..k], q0[k]);
  }

  function Shift(r: Option<nat>, k: nat): Option<nat> {
    match r
    case Some(n) => Some(n + k)
    case None => None
  }

  // ---------------------------------------------------------------------
  // Sending until a reply is rejected

  /** The data written for each command: the command and a newline. */
  function Terminated(cmds: seq<string>): (r: seq<string>)
    ensures |r| == |cmds| && forall i | 0 <= i < |cmds| :: r[i] == cmds[i] + "\n"
  {
    if cmds == [] then [] else [cmds[0] + "\n"] + Terminated(cmds[1..])
  }

  lemma TerminatedAppend(cmds: seq<string>, i: nat)
    requires i < |cmds|
    ensures Terminated(cmds[..i + 1]) == Terminated(cmds[..i]) + [cmds[i] + "\n"]
  {
  }

  /**
   * The reply to each command of `cmds`, written one at a time after
   * `before`; the first reply also carries `carry`, the output that was
   * already waiting.
   */
  function Replies(carry: string, respond: (seq<string>, string) -> string, before: seq<string>, cmds: seq<string>): (r: seq<string>)
    ensures |r| == |cmds|
  {
    seq(|cmds|, i requires 0 <= i < |cmds| =>
      (if i == 0 then carry else "") + respond(before + Terminated(cmds[..i]), cmds[i] + "\n"))
  }

  /** A reply is rejected when it holds one of the markers. */
  predicate Rejects(reply: string, markers: seq<string>) {
    exists m | m in markers :: Contains(reply, m)
  }

  /** The index of the first rejected reply. */
  function FirstRejected(replies: seq<string>, markers: seq<string>): (r: Option<nat>)
    ensures r.Some? ==> r.value < |replies| && Rejects(replies[r.value], markers)
    ensures r.Some? ==> forall j | 0 <= j < r.value :: !Rejects(replies[j], markers)
    ensures r.None? ==> forall j | 0 <= j < |replies| :: !Rejects(replies[j], markers)
  {
    if replies == [] then None
    else if Rejects(replies[0], markers) then Some(0)
    else match FirstRejected(replies[1..], markers)
      case Some(k) =>
        assert forall j | 1 <= j < k + 1 :: replies[j] == replies[1..][j - 1];
        Some(k + 1)
      case None =>
        assert forall j | 1 <= j < |replies| :: replies[j] == replies[1..][j - 1];
        None
  }

  /** What the send loop did: the replies it read, the rejected command if any, the data it wrote. */
  datatype Dispatch = Dispatch(replies: seq<string>, rejected: Option<nat>, written: seq<string>)

  /**
   * The loop that stops at the first rejected reply, on a shell whose
   * unread output is `carry` and to which `before` was written: every
   * command up to and including the first rejected one is written and its
   * reply read, and nothing after it.
   */
  function SendLoop(carry: string, respond: (seq<string>, string) -> string, before: seq<string>,
                    cmds: seq<string>, markers: seq<string>): (d: Dispatch)
    ensures |d.replies| == |d.written| <= |cmds|
    ensures d.written == Terminated(cmds[..|d.written|])
    ensures d.replies == Replies(carry, respond, before, cmds)[..|d.replies|]
    ensures d.rejected.None? ==> |d.replies| == |cmds|
    ensures d.rejected.Some? ==> d.rejected.value == |d.replies| - 1 && Rejects(d.replies[d.rejected.value], markers)
    ensures forall j | 0 <= j < |d.replies| && d.rejected != Some(j) :: !Rejects(d.replies[j], markers)
  {
    var replies := Replies(carry, respond, before, cmds);
    match FirstRejected(replies, markers)
    case Some(k) => Dispatch(replies[..k + 1], Some(k), Terminated(cmds[..k + 1]))
    case None => Dispatch(replies, None, Terminated(cmds))
  }

  /** When no reply is rejected, the loop wrote every command and read every reply. */
  lemma SendLoopCompletes(carry: string, respond: (seq<string>, string) -> string, before: seq<string>,
                          cmds: seq<string>, markers: seq<string>)
    requires SendLoop(carry, respond, before, cmds, markers).rejected.None?
    ensures SendLoop(carry, respond, before, cmds, markers).written == Terminated(cmds)
    ensures SendLoop(carry, respond, before, cmds, markers).replies == Replies(carry, respond, before, cmds)
  {
    assert cmds[..|cmds|] == cmds;
  }

  /**
   * The loop of the BGP, MPLS and VRF back ends: each command is written
   * with a newline and its reply read; the loop stops after the first
   * reply holding a marker, and writes nothing after it.
   */
  method SendUntilRejected(shell: Shell, commands: seq<string>, markers: seq<string>)
    returns (responses: seq<string>, rejected: Option<nat>)
    modifies shell
    ensures var d := SendLoop(Concat(old(shell.incoming)), shell.respond, old(shell.sent), commands, markers);
      && responses == d.replies
      && rejected == d.rejected
      && shell.sent == old(shell.sent) + d.written
      && shell.incoming == (if d.written == [] then old(shell.incoming) else [])
    ensures shell.open == old(shell.open)
  {
    ghost var replies := Replies(Concat(shell.incoming), shell.respond, shell.sent, commands);
    ghost var before := shell.sent;
    ghost var q0 := shell.incoming;
    responses := [];
    rejected := None;
    var i := 0;
    while i < |commands|
      invariant i <= |commands|
      invariant responses == replies[..i]
      invariant FirstRejected(responses, markers) == None
      invariant shell.sent == before + Terminated(commands[..i])
      invariant shell.incoming == (if i == 0 then q0 else [])
      invariant shell.open == old(shell.open)
    {
      var output := SendNext(shell, commands, i, Concat(q0), before, q0);
      FirstRejectedAppend(responses, output, markers);
      assert replies[..i + 1] == replies[..i] + [output];
      responses := responses + [output];
      i := i + 1;
      if Rejects(output, markers) {
        rejected := Some(i - 1);
        SendLoopStops(Concat(q0), shell.respond, before, commands, markers, i, rejected);
        return;
      }
    }
    SendLoopStops(Concat(q0), shell.respond, before, commands, markers, i, rejected);
  }

  /** Scanning one more reply after clean ones: it is the first rejected one exactly when it is rejected. */
  lemma FirstRejectedAppend(replies: seq<string>, reply: string, markers: seq<string>)
    requires FirstRejected(replies, markers) == None
    ensures FirstRejected(replies + [reply], markers) == if Rejects(reply, markers) then Some(|replies|) else None
  {
    assert forall j | 0 <= j < |replies| :: (replies + [reply])[j] == replies[j];
    assert (replies + [reply])[|replies|] == reply;
  }

  /** One turn of the send loop: write command `i` and read its reply. */
  method SendNext(shell: Shell, commands: seq<string>, i: nat, ghost carry: string, ghost before: seq<string>, ghost q0: seq<string>)
    returns (output: string)
    requires i < |commands| && carry == Concat(q0)
    requires shell.sent == before + Terminated(commands[..i]) && shell.incoming == (if i == 0 then q0 else [])
    modifies shell
    ensures output == Replies(carry, shell.respond, before, commands)[i]
    ensures shell.sent == before + Terminated(commands[..i + 1]) && shell.incoming == [] && shell.open == old(shell.open)
  {
    ghost var pending := shell.incoming;
    output := SendAndRead(shell, commands[i] + "\n");
    assert Concat(pending) == if i == 0 then carry else "";
    TerminatedAppend(commands, i);
  }

  /**
   * The send loop is pinned down by where it stops: after `n` replies, the
   * last of them rejected when `rejected` says so, every other one clean.
   */
  lemma SendLoopStops(carry: string, respond: (seq<string>, string) -> string, before: seq<string>,
                      cmds: seq<string>, markers: seq<string>, n: nat, rejected: Option<nat>)
    requires n <= |cmds|
    requires rejected.None? ==> n == |cmds|
    requires rejected.Some? ==> rejected.value == n - 1
    requires FirstRejected(Replies(carry, respond, before, cmds)[..n], markers) == rejected
    ensures SendLoop(carry, respond, before, cmds, markers)
      == Dispatch(Replies(carry, respond, before, cmds)[..n], rejected, Terminated(cmds[..n]))
  {
    var replies := Replies(carry, respond, before, cmds);
    var f := FirstRejected(replies, markers);
    if rejected.Some? {
      assert forall j | 0 <= j < n :: replies[..n][j] == replies[j];
      assert f == rejected;
    } else {
      assert cmds[..n] == cmds && replies[..n] == replies;
    }
  }

  /** A write followed by a large `recv`: what was waiting, then the reply to the write. */
  method SendAndRead(shell: Shell, data: string) returns (output: string)
    modifies shell
    ensures output == Concat(old(shell.incoming)) + shell.respond(old(shell.sent), data)
    ensures shell.sent == old(shell.sent) + [data] && shell.incoming == [] && shell.open == old(shell.open)
  {
    ghost var pending, before := shell.incoming, shell.sent;
    shell.Send(data);
    output := shell.Recv();
    ConcatAppend(pending, shell.respond(before, data));
  }

  /** The reply to each piece of `data`, written one at a time after `before`, nothing being read in between. */
  function Responses(respond: (seq<string>, string) -> string, before: seq<string>, data: seq<string>): (r: seq<string>)
    ensures |r| == |data|
  {
    seq(|data|, i requires 0 <= i < |data| => respond(before + data[..i], data[i]))
  }

  lemma ResponsesAppend(respond: (seq<string>, string) -> string, before: seq<string>, data: seq<string>, x: string)
    ensures Responses(respond, before, data + [x]) == Responses(respond, before, data) + [respond(before + data, x)]
  {
    assert (data + [x])[..|data|] == data;
    forall i | 0 <= i < |data|
      ensures (data + [x])[..i] == data[..i]
    {
    }
  }

  // ---------------------------------------------------------------------
  // Draining ready output

  /** `while channel.recv_ready(): output += channel.recv(4096).decode()`. */
  method Drain(shell: Shell) returns (output: string)
    modifies shell
    ensures output == Concat(old(shell.incoming)) && shell.incoming == []
    ensures shell.sent == old(shell.sent) && shell.open == old(shell.open)
  {
    ghost var q0 := shell.incoming;
    output := "";
    while shell.Ready()
      invariant |shell.incoming| <= |q0| && shell.incoming == q0[|q0| - |shell.incoming|..]
      invariant output == Concat(q0[..|q0| - |shell.incoming|])
      invariant shell.sent == old(shell.sent) && shell.open == old(shell.open)
      decreases |shell.incoming|
    {
      ghost var k := |q0| - |shell.incoming|;
      var part := shell.RecvChunk();
      assert q0[k] == part.value;
      assert q0[..k + 1] == q0[..k] + [part.value];
      ConcatAppend(q0[..k], part.value);
      output := output + part.value;
    }
    assert q0[..|q0|] == q0;
  }

  // ---------------------------------------------------------------------
  // "show ip interface brief"

  /** A line the interface parsers keep: not blank, and not the column header. */
  predicate InterfaceRow(line: string) {
    Strip(line) != [] && !StartsWith(line, "Interface")
  }

  /**
   * `[line.split()[0] for line in output.splitlines() if line.strip() and
   * not line.startswith('Interface')]`: the first word of every kept line.
   */
  function InterfaceNames(output: string): seq<string> {
    FirstWords(Lines(output))
  }

  function FirstWords(lines: seq<string>): seq<string> {
    if lines == [] then []
    else (if InterfaceRow(lines[0]) then [FirstToken(lines[0])] else []) + FirstWords(lines[1..])
  }

  /** A kept line's first word is not empty and holds no whitespace. */
  lemma FirstTokenIsWord(line: string)
    requires Strip(line) != []
    ensures FirstToken(line) != []
    ensures forall k | 0 <= k < |FirstToken(line)| :: !IsSpace(FirstToken(line)[k])
  {
    TrimStartEmpty(line);
  }

  /** The parsers never give more names than the text has lines. */
  lemma {:induction false} FirstWordsLength(lines: seq<string>)
    ensures |FirstWords(lines)| <= |lines|
  {
    if lines != [] {
      FirstWordsLength(lines[1..]);
    }
  }

  /** Every name given is a word: not empty, and without whitespace. */
  lemma {:induction false} FirstWordsAreWords(lines: seq<string>)
    ensures forall x | x in FirstWords(lines) :: x != [] && forall k | 0 <= k < |x| :: !IsSpace(x[k])
  {
    if lines != [] {
      FirstWordsAreWords(lines[1..]);
      if InterfaceRow(lines[0]) {
        FirstTokenIsWord(lines[0]);
      }
    }
  }

  /** A name is given exactly when it is the first word of some kept line. */
  lemma {:induction false} FirstWordsMembers(lines: seq<string>, w: string)
    ensures w in FirstWords(lines) <==> exists line | line in lines :: InterfaceRow(line) && FirstToken(line) == w
  {
    if lines != [] {
      FirstWordsMembers(lines[1..], w);
      var head := if InterfaceRow(lines[0]) then [FirstToken(lines[0])] else [];
      assert FirstWords(lines) == head + FirstWords(lines[1..]);
      assert forall line | line in lines :: line == lines[0] || line in lines[1..];
    }
  }

  /** Parsing the lines of two texts one after the other gives the names of the first, then those of the second. */
  lemma {:induction false} FirstWordsAppend(a: seq<string>, b: seq<string>)
    ensures FirstWords(a + b) == FirstWords(a) + FirstWords(b)
  {
    if a == [] {
      assert a + b == b;
    } else {
      assert (a + b)[0] == a[0] && (a + b)[1..] == a[1..] + b;
      FirstWordsAppend(a[1..], b);
      var head := if InterfaceRow(a[0]) then [FirstToken(a[0])] else [];
      assert head + (FirstWords(a[1..]) + FirstWords(b)) == (head + FirstWords(a[1..])) + FirstWords(b);
    }
  }
}
