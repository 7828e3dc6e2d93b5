/**
 * The dashboard's simulated voice call: a status, a duration counted in seconds and
 * a transcript.  The timers the page schedules are discrete events here: each
 * `setTimeout` callback and each firing of the `setInterval` callback is a method
 * that may be called once the timer has been scheduled, and the object counts the
 * callbacks that are still due.
 */
module VoiceCall {
  import opened Decimal

  datatype CallStatus = Idle | Connecting | Active | Ended

  datatype Speaker = User | Ai

  datatype Entry = Entry(role: Speaker, text: string)

  const Greeting: string := "Hello! I'm your AI voice assistant. How can I help you today?"
  const UserQuestion: string := "Can you help me with my account settings?"
  const AssistantAnswer: string :=
    "Of course! I'd be happy to help with your account settings. What specific settings would you like to adjust?"

  /** `formatTime`: whole minutes and remaining seconds, each padded to two digits. */
  function FormatTime(seconds: nat): string {
    ZeroPad2(NatToString(seconds / 60)) + ":" + ZeroPad2(NatToString(seconds % 60))
  }

  /**
   * The text of `formatTime` is a minutes field, a colon and a two-digit seconds
   * field; reading the fields back gives the whole minutes and the remaining
   * seconds, and the text is five characters long exactly below 100 minutes.
   */
  lemma FormatTimeFields(seconds: nat)
    ensures var r := FormatTime(seconds);
      && |r| >= 5 && r[|r| - 3] == ':'
      && AllDigits(r[..|r| - 3]) && AllDigits(r[|r| - 2..])
      && DigitsValue(r[..|r| - 3]) == seconds / 60
      && DigitsValue(r[|r| - 2..]) == seconds % 60 < 60
      && DigitsValue(r[..|r| - 3]) * 60 + DigitsValue(r[|r| - 2..]) == seconds
      && (|r| == 5 <==> seconds < 6000)
  {
    var r := FormatTime(seconds);
    var mins := ZeroPad2(NatToString(seconds / 60));
    var secs := ZeroPad2(NatToString(seconds % 60));
    assert DigitsValue(mins) == seconds / 60 by { NatToStringValue(seconds / 60); }
    assert DigitsValue(secs) == seconds % 60 by { NatToStringValue(seconds % 60); }
    ClockFields(mins, secs);
    assert r == mins + ":" + secs;
    assert r[..|r| - 3] == mins && r[|r| - 2..] == secs;
    FormatTimeWidth(seconds);
  }

  /** The text of `formatTime` is five characters long exactly below 100 minutes. */
  lemma FormatTimeWidth(seconds: nat)
    ensures |FormatTime(seconds)| == 5 <==> seconds < 6000
  {
    var m := NatToString(seconds / 60);
    var mins := ZeroPad2(m);
    ClockFields(mins, ZeroPad2(NatToString(seconds % 60)));
    assert |m| <= 2 <==> seconds / 60 < 100;
    assert |mins| == 2 <==> |m| <= 2;
    assert seconds / 60 < 100 <==> seconds < 6000;
  }

  /** Where the two fields of "mm:ss" lie when the seconds field has two characters. */
  lemma ClockFields(mins: string, secs: string)
    requires |secs| == 2
    ensures var r := mins + ":" + secs;
      |r| == |mins| + 3 && r[|r| - 3] == ':' && r[..|r| - 3] == mins && r[|r| - 2..] == secs
  {
  }

  /** The main button starts a call when none is in progress, and ends it otherwise. */
  predicate StartsCall(status: CallStatus) {
    status == Idle || status == Ended
  }

  class CallSimulator {
    var status: CallStatus
    var duration: nat
    var transcript: seq<Entry>
    var timerHeld: bool      // timerRef.current holds an interval
    var intervals: nat       // intervals running, the held one and any no longer referenced
    var connectsDue: nat     // connection timeouts scheduled and not yet fired
    var resetsDue: nat       // reset-to-idle timeouts scheduled and not yet fired
    var repliesDue: nat      // assistant-answer timeouts scheduled and not yet fired

    ghost predicate Valid()
      reads this
    {
      timerHeld ==> intervals > 0
    }

    /** Every running interval is the one timerRef holds. */
    ghost predicate SingleTimer()
      reads this
    {
      intervals == if timerHeld then 1 else 0
    }

    constructor ()
      ensures Valid() && SingleTimer()
      ensures status == Idle && duration == 0 && transcript == []
      ensures !timerHeld && intervals == 0 && connectsDue == 0 && resetsDue == 0 && repliesDue == 0
    {
      status, duration, transcript := Idle, 0, [];
      timerHeld, intervals := false, 0;
      connectsDue, resetsDue, repliesDue := 0, 0, 0;
    }

    /** `startCall`: connecting, the duration back to 0, and the connection timeout scheduled. */
    method StartCall()
      requires Valid()
      modifies this`status, this`duration, this`connectsDue
      ensures Valid()
      ensures status == Connecting && duration == 0 && connectsDue == old(connectsDue) + 1
    {
      status := Connecting;
      duration := 0;
      connectsDue := connectsDue + 1;
    }

    /**
     * The connection timeout fires: the call is active, the greeting is appended and
     * a new interval is stored in timerRef (one it held before keeps running).
     */
    method ConnectionEstablished()
      requires Valid() && connectsDue > 0
      modifies this`status, this`transcript, this`timerHeld, this`intervals, this`connectsDue
      ensures Valid()
      ensures status == Active && transcript == old(transcript) + [Entry(Ai, Greeting)]
      ensures timerHeld && intervals == old(intervals) + 1 && connectsDue == old(connectsDue) - 1
      ensures old(SingleTimer()) && !old(timerHeld) ==> SingleTimer()
    {
      status := Active;
      transcript := transcript + [Entry(Ai, Greeting)];
      intervals := intervals + 1;
      timerHeld := true;
      connectsDue := connectsDue - 1;
    }

    /** A running interval fires: one more second. */
    method Tick()
      requires Valid() && intervals > 0
      modifies this`duration
      ensures Valid() && duration == old(duration) + 1
    {
      duration := duration + 1;
    }

    /** `endCall`: ended, the held interval cleared, and the reset timeout scheduled. */
    method EndCall()
      requires Valid()
      modifies this`status, this`timerHeld, this`intervals, this`resetsDue
      ensures Valid()
      ensures status == Ended && !timerHeld && resetsDue == old(resetsDue) + 1
      ensures intervals == if old(timerHeld) then old(intervals) - 1 else old(intervals)
      ensures old(SingleTimer()) ==> intervals == 0
    {
      status := Ended;
      if timerHeld {
        intervals := intervals - 1;
        timerHeld := false;
      }
      resetsDue := resetsDue + 1;
    }

    /** The reset timeout fires: back to idle, whatever the status is by then. */
    method ResetElapsed()
      requires Valid() && resetsDue > 0
      modifies this`status, this`resetsDue
      ensures Valid() && status == Idle && resetsDue == old(resetsDue) - 1
    {
      status := Idle;
      resetsDue := resetsDue - 1;
    }

    /** `simulateUserSpeaking`: only during an active call, append the question and schedule the answer. */
    method SimulateUserSpeaking()
      requires Valid()
      modifies this`transcript, this`repliesDue
      ensures Valid()
      ensures transcript == if old(status) == Active then old(transcript) + [Entry(User, UserQuestion)] else old(transcript)
      ensures repliesDue == if old(status) == Active then old(repliesDue) + 1 else old(repliesDue)
    {
      if status == Active {
        transcript := transcript + [Entry(User, UserQuestion)];
        repliesDue := repliesDue + 1;
      }
    }

    /** The answer timeout fires: the assistant's answer is appended, whatever the status is by then. */
    method AnswerElapsed()
      requires Valid() && repliesDue > 0
      modifies this`transcript, this`repliesDue
      ensures Valid()
      ensures transcript == old(transcript) + [Entry(Ai, AssistantAnswer)] && repliesDue == old(repliesDue) - 1
    {
      transcript := transcript + [Entry(Ai, AssistantAnswer)];
      repliesDue := repliesDue - 1;
    }

    /** The main call button. */
    method PressMainButton()
      requires Valid()
      modifies this`status, this`duration, this`connectsDue, this`timerHeld, this`intervals, this`resetsDue
      ensures Valid()
      ensures StartsCall(old(status)) ==>
        status == Connecting && duration == 0 && connectsDue == old(connectsDue) + 1
        && timerHeld == old(timerHeld) && intervals == old(intervals) && resetsDue == old(resetsDue)
      ensures !StartsCall(old(status)) ==>
        status == Ended && !timerHeld && resetsDue == old(resetsDue) + 1
        && duration == old(duration) && connectsDue == old(connectsDue)
        && intervals == if old(timerHeld) then old(intervals) - 1 else old(intervals)
    {
      if StartsCall(status) {
        StartCall();
      } else {
        EndCall();
      }
    }
  }

  /**
   * A call answered, left running for `seconds` ticks and hung up: the duration is
   * the number of ticks, the transcript holds the greeting alone, no interval is
   * left running (so nothing advances the duration any more), and the reset
   * timeout returns the status to idle.
   */
  method OrdinaryCall(seconds: nat)
    returns (durationAtEnd: nat, statusAtEnd: CallStatus, runningAtEnd: nat, finalStatus: CallStatus, transcript: seq<Entry>)
    ensures durationAtEnd == seconds && statusAtEnd == Ended && runningAtEnd == 0
    ensures finalStatus == Idle && transcript == [Entry(Ai, Greeting)]
  {
    var call := new CallSimulator();
    call.PressMainButton();
    call.ConnectionEstablished();
    var i := 0;
    while i < seconds
      invariant 0 <= i <= seconds
      invariant call.Valid() && call.SingleTimer() && call.timerHeld
      invariant call.status == Active && call.duration == i && call.resetsDue == 0
      invariant call.transcript == [Entry(Ai, Greeting)]
    {
      call.Tick();
      i := i + 1;
    }
    call.PressMainButton();
    durationAtEnd, statusAtEnd, runningAtEnd := call.duration, call.status, call.intervals;
    call.ResetElapsed();
    finalStatus, transcript := call.status, call.transcript;
  }

  /**
   * Hanging up while the call is still connecting does not cancel the connection
   * timeout: when it fires the call turns active with its interval running, and
   * the pending reset later sets the status to idle while that interval still runs.
   */
  method HangUpWhileConnecting() returns (afterConnect: CallStatus, afterReset: CallStatus, running: nat)
    ensures afterConnect == Active && afterReset == Idle && running == 1
  {
    var call := new CallSimulator();
    call.PressMainButton();
    call.PressMainButton();
    call.ConnectionEstablished();
    afterConnect := call.status;
    call.ResetElapsed();
    afterReset, running := call.status, call.intervals;
  }

  /**
   * Following on from HangUpWhileConnecting, a new call from the idle status stores a
   * second interval over the first; hanging up clears only the second, so each
   * second still advances the duration after the call has ended.
   */
  method LeakedInterval() returns (statusAtEnd: CallStatus, running: nat, before: nat, after: nat)
    ensures statusAtEnd == Ended && running == 1 && after == before + 1
  {
    var call := new CallSimulator();
    call.PressMainButton();
    call.PressMainButton();
    call.ConnectionEstablished();
    call.ResetElapsed();
    call.PressMainButton();
    call.ConnectionEstablished();
    call.PressMainButton();
    statusAtEnd, running, before := call.status, call.intervals, call.duration;
    call.Tick();
    after := call.duration;
  }
}
