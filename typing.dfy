/**
  The typing-code animation shared by the TypingCode and TypingCodeAnimation
  components: an interval types the code one character per tick; at the end
  typing stops and a single timeout later clears the text and starts again; a
  second interval blinks the caret. The timers are events: a typing tick, the
  pause elapsing and a caret tick. Their durations are kept as configuration
  but play no part in the behaviour modelled.
*/
module Typing {

  const DefaultTypingSpeed: nat := 50
  const DefaultPauseDuration: nat := 2000
  const DefaultCaretBlinkSpeed: nat := 500

  /** The effect's closure variables, the displayed text, and whether the pause timeout is scheduled. */
  datatype TypingState = TypingState(index: nat, isTyping: bool, displayed: string, pausePending: bool)

  /** When the effect starts: nothing typed, typing, no timeout scheduled. */
  function Start(): (s: TypingState)
    ensures s.index == 0 && s.isTyping && s.displayed == "" && !s.pausePending
  {
    TypingState(0, true, "", false)
  }

  /** The displayed text is the first `index` characters of the code, and the pause is scheduled exactly while typing is off. */
  ghost predicate Valid(code: string, s: TypingState) {
    && s.index <= |code|
    && s.displayed == code[..s.index]
    && (s.pausePending <==> !s.isTyping)
  }

  /** One tick of the typing interval. */
  function Tick(code: string, s: TypingState): (r: TypingState)
    ensures !s.isTyping ==> r == s
    ensures s.isTyping && s.index < |code| ==>
      r == s.(index := s.index + 1, displayed := code[..s.index + 1])
    ensures s.isTyping && |code| <= s.index ==>
      r.index == s.index && r.displayed == s.displayed && !r.isTyping && r.pausePending
    ensures Valid(code, s) ==> Valid(code, r)
  {
    if s.isTyping then
      if s.index < |code| then s.(displayed := code[..s.index + 1], index := s.index + 1)
      else s.(isTyping := false, pausePending := true)
    else s
  }

  /** The pause timeout fires: back to the start, ready to type again. */
  function Pause(s: TypingState): (r: TypingState)
    requires s.pausePending
    ensures r == Start()
  {
    s.(index := 0, displayed := "", isTyping := true, pausePending := false)
  }

  /** `n` ticks in a row. */
  function Ticks(code: string, s: TypingState, n: nat): TypingState
    decreases n
  {
    if n == 0 then s else Ticks(code, Tick(code, s), n - 1)
  }

  /** Starting from any valid typing state, each tick types exactly one more character until the code runs out. */
  lemma {:induction false} TicksType(code: string, k: nat, n: nat)
    requires k + n <= |code|
    ensures Ticks(code, TypingState(k, true, code[..k], false), n) == TypingState(k + n, true, code[..k + n], false)
    decreases n
  {
    if n > 0 {
      assert Tick(code, TypingState(k, true, code[..k], false)) == TypingState(k + 1, true, code[..k + 1], false);
      TicksType(code, k + 1, n - 1);
    }
  }

  /**
    From the start, |code| ticks show the whole code; one more tick stops
    typing and schedules the pause; when it fires, the cycle is back where it
    began. Between start and end every state is valid.
  */
  lemma FullCycle(code: string)
    ensures Ticks(code, Start(), |code|) == TypingState(|code|, true, code, false)
    ensures var done := Tick(code, Ticks(code, Start(), |code|));
      && done == TypingState(|code|, false, code, true)
      && Pause(done) == Start()
  {
    TicksType(code, 0, |code|);
    assert code[..0] == "" && code[..|code|] == code;
  }

  /** While the pause is pending, typing ticks change nothing, however many arrive. */
  lemma {:induction false} PausedTicksIdle(code: string, s: TypingState, n: nat)
    requires !s.isTyping
    ensures Ticks(code, s, n) == s
    decreases n
  {
    if n > 0 {
      PausedTicksIdle(code, s, n - 1);
    }
  }

  /** The animation of one component: its configuration and its state. */
  class TypingCode {
    const code: string
    const typingSpeed: nat
    const pauseDuration: nat
    const caretBlinkSpeed: nat
    var index: nat
    var isTyping: bool
    var pausePending: bool
    var displayed: string
    var showCaret: bool

    function State(): TypingState
      reads this
    {
      TypingState(index, isTyping, displayed, pausePending)
    }

    /** TypingCode: the caret blinks every 500 ms. */
    constructor TypingCode(code: string, typingSpeed: nat, pauseDuration: nat)
      ensures this.code == code && caretBlinkSpeed == DefaultCaretBlinkSpeed
      ensures State() == Start() && showCaret
      ensures Valid(code, State())
    {
      this.code := code;
      this.typingSpeed := typingSpeed;
      this.pauseDuration := pauseDuration;
      caretBlinkSpeed := DefaultCaretBlinkSpeed;
      index := 0;
      isTyping := true;
      pausePending := false;
      displayed := "";
      showCaret := true;
    }

    /** TypingCodeAnimation: the same machine with a configurable caret speed. */
    constructor TypingCodeAnimation(code: string, typingSpeed: nat, pauseDuration: nat, caretBlinkSpeed: nat)
      ensures this.code == code && this.caretBlinkSpeed == caretBlinkSpeed
      ensures State() == Start() && showCaret
      ensures Valid(code, State())
    {
      this.code := code;
      this.typingSpeed := typingSpeed;
      this.pauseDuration := pauseDuration;
      this.caretBlinkSpeed := caretBlinkSpeed;
      index := 0;
      isTyping := true;
      pausePending := false;
      displayed := "";
      showCaret := true;
    }

    /** The typing interval's callback. */
    method TypeTick()
      modifies this
      ensures State() == Tick(code, old(State()))
      ensures showCaret == old(showCaret)
    {
      if isTyping {
        if index < |code| {
          displayed := code[..index + 1];
          index := index + 1;
        } else {
          isTyping := false;
          pausePending := true;
        }
      }
    }

    /** The pause timeout's callback; it exists only after typing has stopped. */
    method PauseElapsed()
      requires pausePending
      modifies this
      ensures State() == Pause(old(State()))
      ensures showCaret == old(showCaret)
    {
      index := 0;
      displayed := "";
      isTyping := true;
      pausePending := false;
    }

    /** The caret interval's callback: it flips the caret and nothing else. */
    method CaretTick()
      modifies this
      ensures showCaret == !old(showCaret)
      ensures State() == old(State())
    {
      showCaret := !showCaret;
    }
  }
}
