/** The message loop of App.tsx: every message of the agent stream is logged
    (newest first, at most fifty kept), a heartbeat marks the connection as
    streaming, a `surfaceUpdate` installs a new UI tree and lays it out, and a
    `dataModelUpdate` patches the current tree and lays it out again when the
    patch lands.

    `Turn` is the specification of one turn of the loop and `Run` of a whole
    stream; `StreamSession` keeps the component's state (the data-model ref,
    the published layout, the status line and the message log) in fields that
    its methods update, as the state setters do.

    Two steps of the loop throw: reading `msg.payload.root` of a `null` or
    `undefined` payload, and laying out a tree that is `null` or `undefined`
    or holds such a node among the children it walks (`Unlayable`; a patch
    that writes at an index greater than the length of a `children` array
    leaves such holes).  The
    exception ends the loop for good, which `stopped` records; nothing after
    it is processed. */
module StreamLoop {
  import opened JsonValues
  import opened LayoutEngine
  import opened DataModel

  /** A stream message: its `type`, its timestamp and its untyped payload. */
  datatype Message = Message(kind: string, timestamp: real, payload: Json)

  /** What the component holds between messages. */
  datatype AppState = AppState(
    root: Json,                 // rootRef.current
    published: Option<RNode>,   // the layout handed to the renderer
    status: string,
    log: seq<Message>,          // newest first
    stopped: bool)              // the loop ended on an exception

  const LogLimit: nat := 50
  const Connecting: string := "Connecting to AI Agent..."
  const Streaming: string := "Connected (Streaming)"

  /** The state when the loop starts: the status line already says that the
      agent is being contacted, nothing is logged or laid out yet. */
  const Initial: AppState := AppState(JNull, None, Connecting, [], false)

  predicate Nullish(v: Json)
  {
    v == JNull || v == JUndefined
  }

  /** `list.slice(0, 50)` */
  function Newest(list: seq<Message>): (r: seq<Message>)
    ensures |r| <= LogLimit
  {
    if |list| <= LogLimit then list else list[..LogLimit]
  }

  /** The layout of a tree as the renderer receives it. */
  function LayoutOf(root: Json): RNode
  {
    Layout(root, CanvasWidth, 0.0, 0.0)
  }

  /** One turn of the loop. */
  function Turn(s: AppState, m: Message): AppState
  {
    if s.stopped then s
    else
      var logged := s.(log := Newest([m] + s.log));
      if m.kind == "heartbeat" then logged.(status := Streaming)
      else if m.kind == "surfaceUpdate" then
        if Nullish(m.payload) then logged.(stopped := true)
        else
          var newRoot := Get(m.payload, "root");
          if Unlayable(newRoot) then logged.(root := newRoot, stopped := true)
          else logged.(root := newRoot, published := Some(LayoutOf(newRoot)))
      else if m.kind == "dataModelUpdate" && Truthy(s.root) && Patch(s.root, m.payload).Some? then
        var patched := Patch(s.root, m.payload).value;
        if Unlayable(patched) then logged.(root := patched, stopped := true)
        else logged.(root := patched, published := Some(LayoutOf(patched)))
      else logged
  }

  /** The loop over a whole stream, message by message in arrival order. */
  function Run(s: AppState, msgs: seq<Message>): AppState
  {
    if msgs == [] then s else Turn(Run(s, msgs[..|msgs| - 1]), msgs[|msgs| - 1])
  }

  function Reverse(msgs: seq<Message>): (r: seq<Message>)
    ensures |r| == |msgs|
    ensures forall k :: 0 <= k < |msgs| ==> r[k] == msgs[|msgs| - 1 - k]
  {
    if msgs == [] then [] else [msgs[|msgs| - 1]] + Reverse(msgs[..|msgs| - 1])
  }

  // ---------------------------------------------------------------------
  // The component's state, updated in place

  class StreamSession {
    var root: Json
    var published: Option<RNode>
    var status: string
    var log: seq<Message>
    var stopped: bool

    function State(): AppState
      reads this
    {
      AppState(root, published, status, log, stopped)
    }

    constructor ()
      ensures State() == Initial
    {
      root := JNull;
      published := None;
      status := Connecting;
      log := [];
      stopped := false;
    }

    /** The body of the `for await` loop for one message. */
    method Receive(m: Message)
      modifies this
      ensures State() == Turn(old(State()), m)
    {
      if stopped {
        return;
      }
      log := Newest([m] + log);
      if m.kind == "heartbeat" {
        status := Streaming;
      }
      if m.kind == "surfaceUpdate" {
        if Nullish(m.payload) {
          stopped := true;
          return;
        }
        var newRoot := Get(m.payload, "root");
        root := newRoot;
        if Unlayable(newRoot) {
          // calculateLayout throws
          stopped := true;
          return;
        }
        var layout := CalculateLayout(newRoot);
        published := Some(layout);
      }
      if m.kind == "dataModelUpdate" {
        if Truthy(root) {
          var applied, patched := ApplyDataModelUpdate(root, m.payload);
          if applied {
            root := patched;
            if Unlayable(root) {
              // calculateLayout throws
              stopped := true;
              return;
            }
            var layout := CalculateLayout(root);
            published := Some(layout);
          }
        }
      }
    }

    /** The whole `for await` loop over a stream. */
    method Consume(msgs: seq<Message>)
      modifies this
      ensures State() == Run(old(State()), msgs)
    {
      for i := 0 to |msgs|
        invariant State() == Run(old(State()), msgs[..i])
      {
        assert msgs[..i + 1][..i] == msgs[..i];
        Receive(msgs[i]);
      }
      assert msgs[..|msgs|] == msgs;
    }
  }

  // ---------------------------------------------------------------------
  // Properties of the loop

  /** Once the loop has ended, no message changes anything. */
  lemma {:induction false} StoppedIsFinal(s: AppState, msgs: seq<Message>)
    requires s.stopped
    ensures Run(s, msgs) == s
  {
    if msgs != [] {
      StoppedIsFinal(s, msgs[..|msgs| - 1]);
    }
  }

  /** A loop still running after a stream was running after each prefix. */
  lemma {:induction false} RunningBefore(s: AppState, msgs: seq<Message>, k: nat)
    requires k <= |msgs|
    requires !Run(s, msgs).stopped
    ensures !Run(s, msgs[..k]).stopped
    decreases |msgs|
  {
    assert msgs[..|msgs|] == msgs;
    if k < |msgs| {
      var front := msgs[..|msgs| - 1];
      assert front[..k] == msgs[..k];
      RunningBefore(s, front, k);
    }
  }

  lemma NewestOfLonger(m: Message, list: seq<Message>)
    ensures Newest([m] + Newest(list)) == Newest([m] + list)
  {
    if |list| > LogLimit {
      assert ([m] + list[..LogLimit])[..LogLimit] == ([m] + list)[..LogLimit];
    }
  }

  /** Every turn that leaves the loop running logs its message. */
  lemma TurnLogs(s: AppState, m: Message)
    requires !Turn(s, m).stopped
    ensures !s.stopped && Turn(s, m).log == Newest([m] + s.log)
  {
  }

  /** While the loop runs, the log holds the newest fifty of everything
      received, newest first, followed by what was logged before. */
  lemma {:induction false} LogWindow(s: AppState, msgs: seq<Message>)
    requires |s.log| <= LogLimit
    requires !Run(s, msgs).stopped
    ensures Run(s, msgs).log == Newest(Reverse(msgs) + s.log)
    ensures |Run(s, msgs).log| <= LogLimit
  {
    if msgs == [] {
    } else {
      var front := msgs[..|msgs| - 1];
      var m := msgs[|msgs| - 1];
      RunningBefore(s, msgs, |msgs| - 1);
      LogWindow(s, front);
      assert Run(s, msgs) == Turn(Run(s, front), m);
      TurnLogs(Run(s, front), m);
      NewestOfLonger(m, Reverse(front) + s.log);
      assert Reverse(msgs) == [m] + Reverse(front);
      assert [m] + (Reverse(front) + s.log) == Reverse(msgs) + s.log;
    }
  }

  /** A heartbeat touches the status line and the log only. */
  lemma HeartbeatOnlyStatus(s: AppState, m: Message)
    requires !s.stopped && m.kind == "heartbeat"
    ensures Turn(s, m) == s.(status := Streaming, log := Newest([m] + s.log))
  {
  }

  /** A data-model update that does not land (no tree yet, a refused path, no
      node with the id) leaves the tree and the published layout as they
      were: only the log grows. */
  lemma FailedPatchNoop(s: AppState, m: Message)
    requires !s.stopped && m.kind == "dataModelUpdate"
    requires !Truthy(s.root) || Patch(s.root, m.payload).None?
    ensures Turn(s, m) == s.(log := Newest([m] + s.log))
  {
  }

  /** A surface update that carries a tree replaces it outright: what the
      loop held before (tree, layout) has no bearing on the outcome.  (One
      without a tree stops the loop and leaves the old layout on screen.) */
  lemma SurfaceResets(s: AppState, t: AppState, m: Message)
    requires !s.stopped && !t.stopped && m.kind == "surfaceUpdate"
    requires !Nullish(m.payload) && !Unlayable(Get(m.payload, "root"))
    requires s.status == t.status && s.log == t.log
    ensures Turn(s, m) == Turn(t, m)
  {
  }

  /** As long as the loop runs, the layout handed to the renderer is the
      layout of the current tree, and a tree that is held can be laid out. */
  predicate Consistent(s: AppState)
  {
    && (!s.stopped && s.published.Some? ==> s.published.value == LayoutOf(s.root))
    && (!s.stopped && Truthy(s.root) ==> !Unlayable(s.root))
  }

  lemma TurnConsistent(s: AppState, m: Message)
    requires Consistent(s)
    ensures Consistent(Turn(s, m))
  {
  }

  lemma {:induction false} RunConsistent(s: AppState, msgs: seq<Message>)
    requires Consistent(s)
    ensures Consistent(Run(s, msgs))
  {
    if msgs != [] {
      RunConsistent(s, msgs[..|msgs| - 1]);
      TurnConsistent(Run(s, msgs[..|msgs| - 1]), msgs[|msgs| - 1]);
    }
  }

  /** From the start of the stream: the log window and the published layout
      together. */
  lemma FromStart(msgs: seq<Message>)
    requires !Run(Initial, msgs).stopped
    ensures Run(Initial, msgs).log == Newest(Reverse(msgs))
    ensures Run(Initial, msgs).published.Some? ==>
              Run(Initial, msgs).published.value == LayoutOf(Run(Initial, msgs).root)
    ensures Truthy(Run(Initial, msgs).root) ==> !Unlayable(Run(Initial, msgs).root)
  {
    LogWindow(Initial, msgs);
    assert Reverse(msgs) + [] == Reverse(msgs);
    RunConsistent(Initial, msgs);
  }

  /** The search of a data-model update never meets a `null` or `undefined`
      node (on which `findNodeById` would throw): the tree the running loop
      holds has none. */
  lemma HeldTreeSearchable(s: AppState)
    requires Consistent(s) && !s.stopped && Truthy(s.root)
    ensures !NullIn(PreOrder(s.root))
  {
    UnlayableInPreOrder(s.root);
  }
}
