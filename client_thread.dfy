/**
 * The per-connection thread of the older socket-based server: it forwards the
 * client's login reply, then feeds the client's lines into the server's request
 * queue and writes the messages of its own output queue to the socket, until
 * it is closed.
 */
module ConnectionThread {
  import opened Wrappers
  import opened JavaText
  import opened Requests
  import Registry

  /** The sentinel that tells the output loop to stop; it is never written to the client. */
  const Exit := "exit"

  /** The longest prefix of s whose elements all satisfy p. */
  function TakeWhile<T>(p: T -> bool, s: seq<T>): (r: seq<T>)
    ensures r <= s
    ensures forall k :: 0 <= k < |r| ==> p(r[k])
    ensures |r| < |s| ==> !p(s[|r|])
  {
    if |s| == 0 || !p(s[0]) then [] else [s[0]] + TakeWhile(p, s[1..])
  }

  /** A prefix all of whose elements satisfy p is part of what TakeWhile keeps. */
  lemma TakeWhileCovers<T>(p: T -> bool, s: seq<T>, i: nat)
    requires i <= |s| && forall k :: 0 <= k < i ==> p(s[k])
    ensures i <= |TakeWhile(p, s)|
    ensures i < |s| && !p(s[i]) ==> TakeWhile(p, s) == s[..i]
  {
  }

  /** The lines the input loop forwards before it meets one without a numeric command prefix. */
  function AcceptedPrefix(lines: seq<string>): seq<string>
  {
    TakeWhile(HasCommandPrefix, lines)
  }

  /** While the scan is within the accepted lines, the next line passes the test exactly when it is accepted too. */
  lemma AcceptedStep(lines: seq<string>, i: nat)
    requires i < |lines| && i <= |AcceptedPrefix(lines)|
    ensures HasCommandPrefix(lines[i]) <==> i < |AcceptedPrefix(lines)|
  {
    var a := AcceptedPrefix(lines);
    if i < |a| {
      assert a[i] == lines[i];
    }
  }

  /** The accepted lines end at the first line that fails the test, or at the end of the input. */
  lemma AcceptedStop(lines: seq<string>, i: nat)
    requires i <= |AcceptedPrefix(lines)|
    requires i == |lines| || !HasCommandPrefix(lines[i])
    ensures AcceptedPrefix(lines) == lines[..i]
  {
    if i < |lines| {
      AcceptedStep(lines, i);
    }
  }

  /** Tagging one more line of the input adds its request at the end. */
  lemma TaggedPrefix(queued: seq<ClientRequest>, id: int, lines: seq<string>, i: nat)
    requires i < |lines|
    ensures queued + Tagged(id, lines[..i + 1]) == (queued + Tagged(id, lines[..i])) + [ClientRequest(id, lines[i])]
  {
    assert lines[..i + 1][..i] == lines[..i];
  }

  /** Writing the next message of q extends the written prefix of q by one. */
  lemma PrefixSnoc<T>(before: seq<T>, q: seq<T>, i: nat)
    requires i < |q|
    ensures before + q[..i + 1] == (before + q[..i]) + [q[i]]
  {
    assert q[..i + 1] == q[..i] + [q[i]];
  }

  /** The messages the output loop writes before it meets the sentinel. */
  function BeforeExit(messages: seq<string>): seq<string>
  {
    TakeWhile((m: string) => m != Exit, messages)
  }

  /** The login reply is a success when it carries a manual, automatic or hub login confirmation code. */
  predicate IsLoginSuccess(loginResult: string)
  {
    StartsWith(loginResult, "102") || StartsWith(loginResult, "104") || StartsWith(loginResult, "121")
  }

  /**
   * The login test reads the reply's code the way the input loop reads a
   * request's: the first three characters, parsed as an int, must be 102,
   * 104 or 121. So "+102" or "-21" fail though the first parse test would
   * accept them.
   */
  lemma LoginSuccessIsParsedCode(loginResult: string)
    ensures IsLoginSuccess(loginResult) <==>
              |loginResult| >= 3 && (var code := ParseInt(loginResult[..3]);
                                     code == Some(102) || code == Some(104) || code == Some(121))
    ensures IsLoginSuccess(loginResult) ==> HasCommandPrefix(loginResult)
  {
    LoginCodeLiterals();
    CodePrefixParses(loginResult, "102", 102);
    CodePrefixParses(loginResult, "104", 104);
    CodePrefixParses(loginResult, "121", 121);
  }

  lemma LoginCodeLiterals()
    ensures |"102"| == 3 && AllDigits("102") && ParseInt("102") == Some(102)
    ensures |"104"| == 3 && AllDigits("104") && ParseInt("104") == Some(104)
    ensures |"121"| == 3 && AllDigits("121") && ParseInt("121") == Some(121)
  {
    ParseThreeDigits("102");
    ParseThreeDigits("104");
    ParseThreeDigits("121");
  }

  /** The registry's manual login confirmation counts as a success, a "901::" rejection does not. */
  lemma LoginRepliesClassified(nameID: string, admin: bool, alias: string, key: string, reason: string)
    ensures IsLoginSuccess(Registry.ManualConfirmation(nameID, admin, alias, key))
    ensures !IsLoginSuccess("901::" + reason)
  {
    JoinCons("102", [nameID, ShowBool(admin), alias, key]);
    var r := Registry.ManualConfirmation(nameID, admin, alias, key);
    assert r[..3] == "102";
    var e := "901::" + reason;
    assert e[..3] == "901";
  }

  /** Every line of the input makes at most one request, tagged with the thread and unchanged. */
  lemma AcceptedLinesForwarded(threadID: int, lines: seq<string>)
    ensures |Tagged(threadID, AcceptedPrefix(lines))| <= |lines|
    ensures forall k :: 0 <= k < |AcceptedPrefix(lines)| ==>
              Tagged(threadID, AcceptedPrefix(lines))[k] == ClientRequest(threadID, lines[k]) && HasCommandPrefix(lines[k])
  {
    var a := AcceptedPrefix(lines);
    assert forall k :: 0 <= k < |a| ==> a[k] == lines[k];
  }

  class ClientThread {
    const threadID: int
    var terminateThread: bool
    /** clientConnection is open. */
    var connectionOpen: bool
    /** outputQueue: what the registry sends this client. */
    var outputQueue: seq<string>
    /** The lines written to the socket. */
    var written: seq<string>
    /** outputThread has been started. */
    var outputStarted: bool
    /** The ids passed to removeConnectedClient. */
    var deregistered: seq<int>
    /** The server's clientRequests queue. */
    const requests: RequestQueue

    /** A new thread for an open connection; run() gives it an empty output queue. */
    constructor (threadID: int, requests: RequestQueue)
      ensures this.threadID == threadID && this.requests == requests
      ensures !terminateThread && connectionOpen && !outputStarted
      ensures outputQueue == [] && written == [] && deregistered == []
    {
      this.threadID := threadID;
      this.requests := requests;
      terminateThread := false;
      connectionOpen := true;
      outputStarted := false;
      outputQueue := [];
      written := [];
      deregistered := [];
    }

    /** closeThread: the first call closes the connection, wakes the output loop with the sentinel and deregisters; later calls do nothing. */
    method CloseThread()
      modifies this`terminateThread, this`connectionOpen, this`outputQueue, this`deregistered
      ensures terminateThread
      ensures old(terminateThread) ==>
                connectionOpen == old(connectionOpen) && outputQueue == old(outputQueue) && deregistered == old(deregistered)
      ensures !old(terminateThread) ==>
                !connectionOpen && outputQueue == old(outputQueue) + [Exit] && deregistered == old(deregistered) + [threadID]
    {
      if !terminateThread {
        terminateThread := true;
        connectionOpen := false;
        outputQueue := outputQueue + [Exit];
        deregistered := deregistered + [threadID];
      }
    }

    /**
     * inputFromClient, reading lines until the end of the stream: each line whose
     * first three characters parse as an integer is queued for the server; the
     * first line that fails the test, or the end of the input, closes the thread.
     */
    method InputFromClient(lines: seq<string>)
      modifies this`terminateThread, this`connectionOpen, this`outputQueue, this`deregistered, requests
      ensures terminateThread
      ensures old(terminateThread) ==>
                requests.items == old(requests.items) && deregistered == old(deregistered)
                && outputQueue == old(outputQueue) && connectionOpen == old(connectionOpen)
      ensures !old(terminateThread) ==>
                requests.items == old(requests.items) + Tagged(threadID, AcceptedPrefix(lines))
                && !connectionOpen && outputQueue == old(outputQueue) + [Exit] && deregistered == old(deregistered) + [threadID]
    {
      if terminateThread {
        return;
      }
      var i := 0;
      while !terminateThread
        invariant 0 <= i <= |lines|
        invariant i <= |AcceptedPrefix(lines)|
        invariant requests.items == old(requests.items) + Tagged(threadID, lines[..i])
        invariant !terminateThread ==>
                    connectionOpen == old(connectionOpen) && outputQueue == old(outputQueue) && deregistered == old(deregistered)
        invariant terminateThread ==>
                    AcceptedPrefix(lines) == lines[..i]
                    && !connectionOpen && outputQueue == old(outputQueue) + [Exit] && deregistered == old(deregistered) + [threadID]
        decreases |lines| - i + (if terminateThread then 0 else 1)
      {
        if i < |lines| {
          AcceptedStep(lines, i);
        }
        if i < |lines| && HasCommandPrefix(lines[i]) {
          requests.Put(ClientRequest(threadID, lines[i]));
          TaggedPrefix(old(requests.items), threadID, lines, i);
          i := i + 1;
        } else {
          AcceptedStop(lines, i);
          CloseThread();
        }
      }
    }

    /**
     * outputToClient, draining the output queue: every message before the first
     * sentinel is written unchanged; the sentinel closes the thread instead. With
     * no sentinel the loop stops at the empty queue, where take() would wait.
     */
    method OutputToClient()
      modifies this`terminateThread, this`connectionOpen, this`outputQueue, this`deregistered, this`written
      ensures old(terminateThread) ==> unchanged(this)
      ensures !old(terminateThread) ==> written == old(written) + BeforeExit(old(outputQueue))
      ensures forall k :: |old(written)| <= k < |written| ==> written[k] != Exit
      ensures !old(terminateThread) && Exit !in old(outputQueue) ==>
                outputQueue == [] && !terminateThread && connectionOpen == old(connectionOpen) && deregistered == old(deregistered)
      ensures !old(terminateThread) && Exit in old(outputQueue) ==>
                outputQueue == old(outputQueue)[|BeforeExit(old(outputQueue))| + 1..] + [Exit]
                && terminateThread && !connectionOpen && deregistered == old(deregistered) + [threadID]
    {
      if terminateThread {
        return;
      }
      ghost var q := outputQueue;
      ghost var i := 0;
      while !terminateThread && outputQueue != []
        invariant 0 <= i <= |q|
        invariant forall k :: 0 <= k < i - 1 ==> q[k] != Exit
        invariant !terminateThread ==>
                    outputQueue == q[i..] && written == old(written) + q[..i] && (i > 0 ==> q[i - 1] != Exit)
                    && connectionOpen == old(connectionOpen) && deregistered == old(deregistered)
        invariant terminateThread ==>
                    i > 0 && q[i - 1] == Exit && written == old(written) + q[..i - 1]
                    && outputQueue == q[i..] + [Exit] && !connectionOpen && deregistered == old(deregistered) + [threadID]
        decreases |outputQueue| + (if terminateThread then 0 else 1)
      {
        var outputMsg := outputQueue[0];
        outputQueue := outputQueue[1..];
        assert outputMsg == q[i] && outputQueue == q[i + 1..];
        PrefixSnoc(old(written), q, i);
        i := i + 1;
        if outputMsg == Exit {
          CloseThread();
        } else {
          written := written + [outputMsg];
        }
      }
      ghost var p := (m: string) => m != Exit;
      if terminateThread {
        TakeWhileCovers(p, q, i - 1);
        assert Exit in q;
      } else {
        assert i == |q| && q[..i] == q;
        TakeWhileCovers(p, q, i);
        assert Exit !in q;
      }
    }

    /**
     * login, once the handler's login has queued its reply loginResult: the reply
     * is forwarded to the client; a success starts the output loop and runs the
     * input loop over lines; in every case the thread is closed at the end.
     */
    method Login(loginResult: string, lines: seq<string>) returns (success: bool)
      requires !terminateThread && outputQueue == [loginResult]
      modifies this`terminateThread, this`connectionOpen, this`outputQueue, this`deregistered, this`written, this`outputStarted, requests
      ensures success == IsLoginSuccess(loginResult)
      ensures written == old(written) + [loginResult]
      ensures outputStarted == (old(outputStarted) || success)
      ensures success ==> requests.items == old(requests.items) + Tagged(threadID, AcceptedPrefix(lines))
      ensures !success ==> requests.items == old(requests.items)
      ensures terminateThread && !connectionOpen && outputQueue == [Exit] && deregistered == old(deregistered) + [threadID]
    {
      var reply := outputQueue[0];
      outputQueue := outputQueue[1..];
      written := written + [reply];
      success := IsLoginSuccess(reply);
      if success {
        outputStarted := true;
        InputFromClient(lines);
      }
      CloseThread();
    }
  }
}
