/**
 What readPump does with one inbound frame once it has been read: decode it
 as a key message, hand the key to the input simulator when there is one,
 and answer a failed press with an error payload. Decoding is represented
 by its outcome only.
 */
module ReadPump {

  import opened Wrappers
  import opened Payloads
  import opened Simulator

  /** The outcome of json.Unmarshal into a KeyMessage. */
  datatype Inbound = ParseError | Parsed(key: string, kind: string)

  /** The server's input simulator: a KeySimulator's PressKey. */
  type KeySink = string -> PressResult

  /** skip: not a key message; ignore: a message the server does not act on; press: call PressKey. */
  datatype Action = Skip | Ignore | Press(key: string)

  /** The action taken on one frame, and the payload it puts on the connection's queue, if any. */
  datatype Decision = Decision(action: Action, reply: Option<Payload>)

  /** The body of readPump's loop after a successful read. */
  function HandleMessage(msg: Inbound, sink: Option<KeySink>): (d: Decision)
    ensures msg.ParseError? ==> d == Decision(Skip, None)
    ensures d.action.Press? <==> msg.Parsed? && sink.Some? && msg.kind == "key"
    ensures msg.Parsed? && !d.action.Press? ==> d == Decision(Ignore, None)
    ensures d.action.Press? ==> d.action.key == msg.key
    ensures d.reply.Some? <==> d.action.Press? && sink.value(msg.key).Failed?
    ensures d.reply.Some? ==> d.reply.value == Error(PressErrorPrefix + msg.key)
  {
    match msg
    case ParseError => Decision(Skip, None)
    case Parsed(key, kind) =>
      if sink.Some? && kind == "key" then
        match sink.value(key)
        case Failed(_) => Decision(Press(key), Some(Error(PressErrorPrefix + key)))
        case Pressed(_) => Decision(Press(key), None)
      else Decision(Ignore, None)
  }

  /** The keys the pump hands to the simulator over a run of frames, in order. */
  function PressedKeys(msgs: seq<Inbound>, sink: Option<KeySink>): (keys: seq<string>)
    ensures |keys| <= |msgs|
    ensures sink.None? ==> keys == []
  {
    if msgs == [] then []
    else
      var d := HandleMessage(msgs[0], sink);
      (if d.action.Press? then [d.action.key] else []) + PressedKeys(msgs[1..], sink)
  }

  /** The payloads the pump puts on the connection's queue over a run of frames, in order. */
  function Replies(msgs: seq<Inbound>, sink: Option<KeySink>): (replies: seq<Payload>)
    ensures |replies| <= |msgs|
    ensures sink.None? ==> replies == []
  {
    if msgs == [] then []
    else
      var d := HandleMessage(msgs[0], sink);
      (if d.reply.Some? then [d.reply.value] else []) + Replies(msgs[1..], sink)
  }

  /** One error payload per key, naming the key. */
  function ErrorsFor(keys: seq<string>): (r: seq<Payload>)
    ensures |r| == |keys|
    ensures forall i :: 0 <= i < |keys| ==> r[i] == Error(PressErrorPrefix + keys[i])
  {
    if keys == [] then [] else [Error(PressErrorPrefix + keys[0])] + ErrorsFor(keys[1..])
  }

  /** The keys pressed over a run split in two are those of the two parts in order. */
  lemma {:induction false} PressedKeysCompose(a: seq<Inbound>, b: seq<Inbound>, sink: Option<KeySink>)
    ensures PressedKeys(a + b, sink) == PressedKeys(a, sink) + PressedKeys(b, sink)
  {
    if a == [] {
      assert a + b == b;
    } else {
      var d := HandleMessage(a[0], sink);
      var head := if d.action.Press? then [d.action.key] else [];
      assert (a + b)[0] == a[0];
      assert (a + b)[1..] == a[1..] + b;
      PressedKeysCompose(a[1..], b, sink);
      assert PressedKeys(a + b, sink) == head + PressedKeys(a[1..] + b, sink);
      assert PressedKeys(a, sink) == head + PressedKeys(a[1..], sink);
    }
  }

  /** Every key the pump presses comes from a frame of type "key" that carries it. */
  lemma {:induction false} PressedKeysFromKeyFrames(msgs: seq<Inbound>, sink: Option<KeySink>)
    ensures forall j :: 0 <= j < |PressedKeys(msgs, sink)| ==> Parsed(PressedKeys(msgs, sink)[j], "key") in msgs
  {
    if msgs != [] {
      PressedKeysFromKeyFrames(msgs[1..], sink);
      var rest := PressedKeys(msgs[1..], sink);
      forall j | 0 <= j < |rest|
        ensures Parsed(rest[j], "key") in msgs
      {
        assert Parsed(rest[j], "key") in msgs[1..];
      }
    }
  }

  /** The keys of the frames of type "key", in frame order, whatever the simulator does. */
  function KeyFrameKeys(msgs: seq<Inbound>): seq<string>
  {
    if msgs == [] then []
    else (if msgs[0].Parsed? && msgs[0].kind == "key" then [msgs[0].key] else []) + KeyFrameKeys(msgs[1..])
  }

  /** With a simulator, exactly the keys of the "key" frames are pressed, each once, in frame order. */
  lemma {:induction false} PressedKeysAreKeyFrames(msgs: seq<Inbound>, sink: KeySink)
    ensures PressedKeys(msgs, Some(sink)) == KeyFrameKeys(msgs)
  {
    if msgs != [] {
      PressedKeysAreKeyFrames(msgs[1..], sink);
    }
  }

  /** There is at most one reply per pressed key, and every reply is a press error. */
  lemma {:induction false} RepliesFollowPresses(msgs: seq<Inbound>, sink: Option<KeySink>)
    ensures |Replies(msgs, sink)| <= |PressedKeys(msgs, sink)|
    ensures forall j :: 0 <= j < |Replies(msgs, sink)| ==>
      Replies(msgs, sink)[j].Error? && PressErrorPrefix <= Replies(msgs, sink)[j].text
  {
    if msgs != [] {
      RepliesFollowPresses(msgs[1..], sink);
      var d := HandleMessage(msgs[0], sink);
      var head: seq<Payload> := if d.reply.Some? then [d.reply.value] else [];
      var rest := Replies(msgs[1..], sink);
      assert Replies(msgs, sink) == head + rest;
      forall j | 0 <= j < |head + rest|
        ensures (head + rest)[j].Error? && PressErrorPrefix <= (head + rest)[j].text
      {
        if j >= |head| {
          assert (head + rest)[j] == rest[j - |head|];
        }
      }
    }
  }

  /** The replies over a run split in two are those of the two parts in order. */
  lemma {:induction false} RepliesCompose(a: seq<Inbound>, b: seq<Inbound>, sink: Option<KeySink>)
    ensures Replies(a + b, sink) == Replies(a, sink) + Replies(b, sink)
  {
    if a == [] {
      assert a + b == b;
    } else {
      var d := HandleMessage(a[0], sink);
      var head := if d.reply.Some? then [d.reply.value] else [];
      assert (a + b)[0] == a[0];
      assert (a + b)[1..] == a[1..] + b;
      RepliesCompose(a[1..], b, sink);
      assert Replies(a + b, sink) == head + Replies(a[1..] + b, sink);
      assert Replies(a, sink) == head + Replies(a[1..], sink);
    }
  }

  /** Processing is frame by frame: a run split in two is the two runs one after the other. */
  lemma RunsCompose(a: seq<Inbound>, b: seq<Inbound>, sink: Option<KeySink>)
    ensures PressedKeys(a + b, sink) == PressedKeys(a, sink) + PressedKeys(b, sink)
    ensures Replies(a + b, sink) == Replies(a, sink) + Replies(b, sink)
  {
    PressedKeysCompose(a, b, sink);
    RepliesCompose(a, b, sink);
  }

  /** A malformed frame is skipped and the frames after it are still handled. */
  lemma MalformedFrameSkipped(a: seq<Inbound>, b: seq<Inbound>, sink: Option<KeySink>)
    ensures PressedKeys(a + [ParseError] + b, sink) == PressedKeys(a, sink) + PressedKeys(b, sink)
    ensures Replies(a + [ParseError] + b, sink) == Replies(a, sink) + Replies(b, sink)
  {
    var front := a + [ParseError];
    RunsCompose(a, [ParseError], sink);
    RunsCompose(front, b, sink);
    assert PressedKeys([ParseError], sink) == [] && Replies([ParseError], sink) == [];
    assert PressedKeys(front, sink) == PressedKeys(a, sink);
    assert Replies(front, sink) == Replies(a, sink);
  }

  /** Without an input simulator nothing is pressed and nothing is answered. */
  lemma NoSinkNoEffect(msgs: seq<Inbound>)
    ensures PressedKeys(msgs, None) == [] && Replies(msgs, None) == []
  {
  }

  /** A simulator that never fails gets no error payload back to the client. */
  lemma {:induction false} SucceedingSinkNoReplies(msgs: seq<Inbound>, sink: KeySink)
    requires forall k :: sink(k).Pressed?
    ensures Replies(msgs, Some(sink)) == []
  {
    if msgs != [] {
      SucceedingSinkNoReplies(msgs[1..], sink);
    }
  }

  /** A simulator that always fails gets exactly one error payload per pressed key, in order. */
  lemma {:induction false} FailingSinkRepliesPerPress(msgs: seq<Inbound>, sink: KeySink)
    requires forall k :: sink(k).Failed?
    ensures Replies(msgs, Some(sink)) == ErrorsFor(PressedKeys(msgs, Some(sink)))
  {
    if msgs != [] {
      FailingSinkRepliesPerPress(msgs[1..], sink);
      var d := HandleMessage(msgs[0], Some(sink));
      var rest := PressedKeys(msgs[1..], Some(sink));
      if d.action.Press? {
        assert ([d.action.key] + rest)[1..] == rest;
      } else {
        assert [] + rest == rest;
      }
    }
  }

  /** The server's own simulator on Linux or Windows never produces an error payload. */
  lemma SupportedOsNoReplies(os: Os, msgs: seq<Inbound>)
    requires os == Linux || os == Windows
    ensures Replies(msgs, Some(k => PressKey(os, k))) == []
  {
    SucceedingSinkNoReplies(msgs, k => PressKey(os, k));
  }

  /** On any other system every key message is answered with its error payload. */
  lemma UnsupportedOsRepliesPerPress(goos: string, msgs: seq<Inbound>)
    requires goos != "linux" && goos != "windows"
    ensures
      var sink := Some(k => PressKey(OsOf(goos), k));
      Replies(msgs, sink) == ErrorsFor(PressedKeys(msgs, sink))
  {
    FailingSinkRepliesPerPress(msgs, k => PressKey(OsOf(goos), k));
  }

  /** The frame {"key":"5","type":"key"} makes exactly one press of "5". */
  lemma KeyFramePressedOnce(sink: KeySink)
    ensures PressedKeys([Parsed("5", "key")], Some(sink)) == ["5"]
  {
  }

  /** A simulator that fails on "x" sends back exactly {"error":"Failed to press key: x"}. */
  lemma FailedPressReported(sink: KeySink)
    requires sink("x").Failed?
    ensures Replies([Parsed("x", "key")], Some(sink)) == [Error("Failed to press key: x")]
  {
    assert PressErrorPrefix + "x" == "Failed to press key: x";
  }
}
