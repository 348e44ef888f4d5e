/** The wire protocol between the phone and the car: every message the
    client prints is one line that the receiver parses back to the pair
    that was sent, so the car is driven by exactly what was sent, with the
    stop policy applied. */
module Protocol {
  import opened JavaText
  import Client
  import Receiver

  /** The lines the client's writer prints for a series of sends, one
      println per send. */
  function Lines(sent: seq<Receiver.Command>): (lines: seq<string>)
    ensures |lines| == |sent|
  {
    if sent == [] then []
    else Lines(sent[..|sent| - 1]) + [Client.Message(sent[|sent| - 1].angle, sent[|sent| - 1].speed)]
  }

  /** What the car should do for a series of sends: each pair with the stop
      policy applied. */
  function Expected(sent: seq<Receiver.Command>): (cmds: seq<Receiver.Command>)
    ensures |cmds| == |sent|
  {
    if sent == [] then [] else Expected(sent[..|sent| - 1]) + [Receiver.ApplyPolicy(sent[|sent| - 1])]
  }

  predicate AllInt32(sent: seq<Receiver.Command>) {
    forall k :: 0 <= k < |sent| ==> IsInt32(sent[k].angle) && IsInt32(sent[k].speed)
  }

  /** One message: "Angle: a, Speed: s" splits into four pieces and reads
      back as (a, s), and holds no line break, so readLine delivers it whole. */
  lemma MessageRoundTrip(angle: int, speed: int)
    requires IsInt32(angle) && IsInt32(speed)
    ensures Receiver.ParseLine(Client.Message(angle, speed)) == Receiver.Parsed(Receiver.Command(angle, speed))
    ensures '\n' !in Client.Message(angle, speed) && '\r' !in Client.Message(angle, speed)
  {
    var a, s := IntToString(angle), IntToString(speed);
    assert Client.Message(angle, speed) == "Angle" + ": " + a + ", " + "Speed" + ": " + s;
    assert Receiver.NoSep("Angle") && Receiver.NoSep("Speed");
    Receiver.RenderedLineParses("Angle", angle, "Speed", speed);
  }

  /** A whole connection: the receiver dispatches, in order, exactly the
      policy-applied pairs the client sent. */
  lemma {:induction false} StreamRoundTrip(sent: seq<Receiver.Command>)
    requires AllInt32(sent)
    ensures Receiver.Dispatch(Lines(sent)) == Expected(sent)
  {
    if sent != [] {
      var init, last := sent[..|sent| - 1], sent[|sent| - 1];
      assert AllInt32(init) by {
        forall k | 0 <= k < |init| ensures IsInt32(init[k].angle) && IsInt32(init[k].speed) {
          assert init[k] == sent[k];
        }
      }
      StreamRoundTrip(init);
      MessageRoundTrip(last.angle, last.speed);
      Receiver.DispatchSnoc(Lines(init), Client.Message(last.angle, last.speed));
    }
  }

  /** What the car is told never has a non-zero angle at zero speed, and a
      moving car gets the angle that was sent. */
  lemma {:induction false} ExpectedKeepsPolicy(sent: seq<Receiver.Command>, k: int)
    requires 0 <= k < |sent|
    ensures Receiver.PolicyHolds(Expected(sent)[k])
    ensures Expected(sent)[k].speed == sent[k].speed
    ensures sent[k].speed != 0 ==> Expected(sent)[k].angle == sent[k].angle
  {
    if k < |sent| - 1 {
      ExpectedKeepsPolicy(sent[..|sent| - 1], k);
    }
  }
}
