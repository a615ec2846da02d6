/** app/voice/guardrails/processor.py: the rail between the model and the voice, a
    stream transducer that may hold a turn's text until it is vetted. */
module Guardrail {

  datatype Frame = TurnStart | Text(text: string) | TurnEnd | Other(id: nat)

  datatype Packet = Packet(frame: Frame, downstream: bool)

  /** Any mode but "off" and "block" streams and vets afterwards, as "audit" does. */
  datatype Mode = Off | Audit | Block

  /** How vetting a turn ends; of use when a turn ends only. */
  datatype Verdict = Passed | Violated(vetted: string) | TimedOut | Broke

  datatype Event = Event(packet: Packet, verdict: Verdict)

  datatype State = State(buffer: seq<string>, holding: bool)

  const IDLE := State([], false)

  // ------------------------------------------------------------------ blank turns

  /** `str.isspace` of one character. */
  predicate IsSpace(c: char) {
    var n := c as int;
    || 9 <= n <= 13 || 28 <= n <= 32 || n == 0x85 || n == 0xA0 || n == 0x1680 || 0x2000 <= n <= 0x200A
    || n == 0x2028 || n == 0x2029 || n == 0x202F || n == 0x205F || n == 0x3000
  }

  function Join(texts: seq<string>): string {
    if texts == [] then "" else Join(texts[..|texts| - 1]) + texts[|texts| - 1]
  }

  /** `not spoken.strip()`. */
  predicate Blank(texts: seq<string>) { forall c | c in Join(texts) :: IsSpace(c) }

  // ------------------------------------------------------------------- one frame

  function Down(f: Frame): Packet { Packet(f, true) }

  function Texts(texts: seq<string>): seq<Packet> { seq(|texts|, k requires 0 <= k < |texts| => Down(Text(texts[k]))) }

  /** What a held turn says once it ends. */
  function Spoken(texts: seq<string>, v: Verdict): seq<Packet> {
    if Blank(texts) then []
    else match v
      case Violated(vetted) => [Down(Text(vetted))]
      case _ => Texts(texts)
  }

  function Step(mode: Mode, s: State, e: Event): (State, seq<Packet>) {
    var p := e.packet;
    if mode.Off? || !p.downstream then (s, [p])
    else match p.frame
      case TurnStart => (State([], mode.Block?), [p])
      case Text(text) => (s.(buffer := s.buffer + [text]), if s.holding then [] else [p])
      case TurnEnd => (IDLE, (if s.holding then Spoken(s.buffer, e.verdict) else []) + [p])
      case Other(_) => (s, [p])
  }

  function Run(mode: Mode, s: State, events: seq<Event>): (State, seq<Packet>)
    decreases |events|
  {
    if events == [] then (s, [])
    else
      var (mid, out) := Run(mode, s, events[..|events| - 1]);
      var (end, more) := Step(mode, mid, events[|events| - 1]);
      (end, out + more)
  }

  lemma {:induction false} RunsCompose(mode: Mode, s: State, a: seq<Event>, b: seq<Event>)
    ensures var (mid, out) := Run(mode, s, a);
            var (end, more) := Run(mode, mid, b);
            Run(mode, s, a + b) == (end, out + more)
    decreases |b|
  {
    var (mid, out) := Run(mode, s, a);
    if b == [] {
      assert a + b == a;
      assert out + [] == out;
    } else {
      var init, last := b[..|b| - 1], b[|b| - 1];
      assert (a + b)[..|a + b| - 1] == a + init;
      RunsCompose(mode, s, a, init);
      var (later, more) := Run(mode, mid, init);
      var said := Step(mode, later, last).1;
      assert (out + more) + said == out + (more + said);
    }
  }

  // -------------------------------------------------------- off and audit: transparent

  function Packets(events: seq<Event>): seq<Packet> { seq(|events|, k requires 0 <= k < |events| => events[k].packet) }

  /** Outside block mode every stream comes out as it went in, bracketed or not,
      however vetting ends. */
  lemma {:induction false} Transparent(mode: Mode, s: State, events: seq<Event>)
    requires !mode.Block? && !s.holding
    ensures Run(mode, s, events).1 == Packets(events) && !Run(mode, s, events).0.holding
    ensures mode.Off? ==> Run(mode, s, events).0 == s
    decreases |events|
  {
    if events != [] {
      Transparent(mode, s, events[..|events| - 1]);
      assert Packets(events) == Packets(events[..|events| - 1]) + [events[|events| - 1].packet];
    }
  }

  // ------------------------------------------------------------ block: turn by turn

  /** A stream in which turns are bracketed: frames outside turns, and turns. */
  datatype Segment = Loose(event: Event) | Turn(start: Verdict, body: seq<Event>, verdict: Verdict)

  predicate IsBracket(p: Packet) { p.downstream && (p.frame.TurnStart? || p.frame.TurnEnd?) }

  predicate IsText(p: Packet) { p.downstream && p.frame.Text? }

  predicate Bracketed(seg: Segment) {
    match seg
    case Loose(e) => !IsBracket(e.packet) && !IsText(e.packet)
    case Turn(_, body, _) => forall e | e in body :: !IsBracket(e.packet)
  }

  function Unfolded(seg: Segment): seq<Event> {
    match seg
    case Loose(e) => [e]
    case Turn(start, body, v) => [Event(Down(TurnStart), start)] + body + [Event(Down(TurnEnd), v)]
  }

  function Stream(segs: seq<Segment>): seq<Event>
    decreases |segs|
  {
    if segs == [] then [] else Stream(segs[..|segs| - 1]) + Unfolded(segs[|segs| - 1])
  }

  function TextOf(body: seq<Event>): seq<string>
    decreases |body|
  {
    if body == [] then []
    else
      var last := body[|body| - 1];
      TextOf(body[..|body| - 1]) + if IsText(last.packet) then [last.packet.frame.text] else []
  }

  function NotText(body: seq<Event>): seq<Packet>
    decreases |body|
  {
    if body == [] then []
    else NotText(body[..|body| - 1]) + if IsText(body[|body| - 1].packet) then [] else [body[|body| - 1].packet]
  }

  /** What the customer is to hear of a stream: everything that is not text at once,
      and the text of a turn, vetted, right before the turn's end. */
  function Heard(segs: seq<Segment>): seq<Packet>
    decreases |segs|
  {
    if segs == [] then []
    else
      var before, last := Heard(segs[..|segs| - 1]), segs[|segs| - 1];
      match last
      case Loose(e) => before + [e.packet]
      case Turn(_, body, v) => before + ([Down(TurnStart)] + NotText(body) + Spoken(TextOf(body), v) + [Down(TurnEnd)])
  }

  /** Until the turn ends none of its text is let through, and all of it is kept. */
  lemma {:induction false} HeldUntilVetted(s: State, body: seq<Event>)
    requires s.holding && forall e | e in body :: !IsBracket(e.packet)
    ensures Run(Block, s, body) == (State(s.buffer + TextOf(body), true), NotText(body))
    decreases |body|
  {
    if body == [] {
      assert s.buffer + [] == s.buffer;
    } else {
      var init, last := body[..|body| - 1], body[|body| - 1];
      assert body == init + [last];
      assert forall e | e in init :: e in body;
      assert last in body;
      HeldUntilVetted(s, init);
      if IsText(last.packet) {
        assert s.buffer + (TextOf(init) + [last.packet.frame.text])
               == s.buffer + TextOf(init) + [last.packet.frame.text];
      } else {
        assert TextOf(init) + [] == TextOf(init);
      }
      assert Step(Block, State(s.buffer + TextOf(init), true), last)
          == (State(s.buffer + TextOf(body), true), if IsText(last.packet) then [] else [last.packet]);
    }
  }

  lemma RunOne(mode: Mode, s: State, e: Event)
    ensures Run(mode, s, [e]) == Step(mode, s, e)
  {
    assert [e][..0] == [];
    assert Run(mode, s, []) == (s, []);
    assert [] + Step(mode, s, e).1 == Step(mode, s, e).1;
  }

  lemma OneTurn(start: Verdict, body: seq<Event>, v: Verdict)
    requires Bracketed(Turn(start, body, v))
    ensures Run(Block, IDLE, Unfolded(Turn(start, body, v))) ==
            (IDLE, [Down(TurnStart)] + NotText(body) + Spoken(TextOf(body), v) + [Down(TurnEnd)])
  {
    var first, last := Event(Down(TurnStart), start), Event(Down(TurnEnd), v);
    var held := State([], true);
    RunOne(Block, IDLE, first);
    HeldUntilVetted(held, body);
    assert [] + TextOf(body) == TextOf(body);
    RunOne(Block, State(TextOf(body), true), last);
    RunsCompose(Block, IDLE, [first], body);
    RunsCompose(Block, IDLE, [first] + body, [last]);
    assert [Down(TurnStart)] + NotText(body) + (Spoken(TextOf(body), v) + [Down(TurnEnd)])
        == [Down(TurnStart)] + NotText(body) + Spoken(TextOf(body), v) + [Down(TurnEnd)];
  }

  /** Stream integrity: in block mode every bracketed stream comes out turn by turn,
      each turn's text in order, or one vetted replacement, or none for a blank turn;
      nothing crosses into another turn, whether vetting passes, times out or breaks. */
  lemma {:induction false} EveryTurnIsIntact(segs: seq<Segment>)
    requires forall k | 0 <= k < |segs| :: Bracketed(segs[k])
    ensures Run(Block, IDLE, Stream(segs)) == (IDLE, Heard(segs))
    decreases |segs|
  {
    if segs != [] {
      var init, last := segs[..|segs| - 1], segs[|segs| - 1];
      EveryTurnIsIntact(init);
      RunsCompose(Block, IDLE, Stream(init), Unfolded(last));
      match last {
        case Loose(e) => RunOne(Block, IDLE, e);
        case Turn(start, body, v) => OneTurn(start, body, v);
      }
    }
  }

  // ------------------------------------------------------------- streams that are not

  function Held(s: State): seq<string> { if s.holding then s.buffer else [] }

  function TextsOut(out: seq<Packet>): seq<string>
    decreases |out|
  {
    if out == [] then []
    else TextsOut(out[..|out| - 1]) + if IsText(out[|out| - 1]) then [out[|out| - 1].frame.text] else []
  }

  /** What the frames alone tell: whether a turn is open, and its texts so far. */
  datatype Scan = Scan(open: bool, said: seq<string>)

  function Scanned(events: seq<Event>): Scan
    decreases |events|
  {
    if events == [] then Scan(false, [])
    else
      var before, p := Scanned(events[..|events| - 1]), events[|events| - 1].packet;
      if !p.downstream then before
      else match p.frame
        case TurnStart => Scan(true, [])
        case TurnEnd => Scan(false, [])
        case Text(text) => if before.open then Scan(true, before.said + [text]) else before
        case Other(_) => before
  }

  /** A turn with text that is started again before it ended, or ends all blank. */
  predicate Breaks(scan: Scan, p: Packet) {
    && scan.open && scan.said != [] && p.downstream
    && (p.frame.TurnStart? || (p.frame.TurnEnd? && Blank(scan.said)))
  }

  /** No frame of the stream breaks a turn. */
  predicate Unbroken(events: seq<Event>) {
    forall k | 0 <= k < |events| :: !Breaks(Scanned(events[..k]), events[k].packet)
  }

  predicate NeverViolated(events: seq<Event>) { forall e | e in events :: !e.verdict.Violated? }

  lemma {:induction false} TextsOutAppend(a: seq<Packet>, b: seq<Packet>)
    ensures TextsOut(a + b) == TextsOut(a) + TextsOut(b)
    decreases |b|
  {
    if b == [] {
      assert a + b == a;
    } else {
      assert (a + b)[..|a + b| - 1] == a + b[..|b| - 1];
      TextsOutAppend(a, b[..|b| - 1]);
    }
  }

  lemma {:induction false} TextsSay(texts: seq<string>)
    ensures TextsOut(Texts(texts)) == texts
    decreases |texts|
  {
    if texts != [] {
      TextsSay(texts[..|texts| - 1]);
      assert Texts(texts)[..|texts| - 1] == Texts(texts[..|texts| - 1]);
    }
  }

  /** The scan is what the processor remembers. */
  predicate Remembers(s: State, scan: Scan) { s.holding == scan.open && Held(s) == scan.said }

  lemma {:induction false} CharactersOf(texts: seq<string>, c: char)
    ensures c in Join(texts) <==> exists k :: 0 <= k < |texts| && c in texts[k]
    decreases |texts|
  {
    if texts != [] {
      var init, last := texts[..|texts| - 1], texts[|texts| - 1];
      CharactersOf(init, c);
      assert forall k | 0 <= k < |init| :: texts[k] == init[k];
      assert texts[|init|] == last;
    }
  }

  lemma {:induction false} NotTextSaysNothing(body: seq<Event>)
    ensures TextsOut(NotText(body)) == []
    decreases |body|
  {
    if body != [] {
      var init, last := body[..|body| - 1], body[|body| - 1];
      NotTextSaysNothing(init);
      if IsText(last.packet) {
        assert NotText(init) + [] == NotText(init);
      } else {
        RunOneOut(last.packet);
        TextsOutAppend(NotText(init), [last.packet]);
      }
    }
  }

  lemma TurnsSayWhatIsSpoken(before: seq<Packet>, said: seq<Packet>)
    requires TextsOut(before) == []
    ensures TextsOut([Down(TurnStart)] + before + said + [Down(TurnEnd)]) == TextsOut(said)
  {
    var start, end := [Down(TurnStart)], [Down(TurnEnd)];
    RunOneOut(start[0]);
    RunOneOut(end[0]);
    TextsOutAppend(start, before);
    TextsOutAppend(start + before, said);
    TextsOutAppend(start + before + said, end);
  }

  predicate AllSpaces(texts: seq<string>) {
    forall k, j | 0 <= k < |texts| && 0 <= j < |texts[k]| :: IsSpace(texts[k][j])
  }

  /** What a turn says, told from its texts: nothing if all their characters are spaces,
      the replacement alone if the turn was found to violate, and else its texts. */
  lemma WhatATurnSays(start: Verdict, body: seq<Event>, v: Verdict)
    requires Bracketed(Turn(start, body, v))
    ensures TextsOut(Run(Block, IDLE, Unfolded(Turn(start, body, v))).1) ==
            if AllSpaces(TextOf(body)) then [] else if v.Violated? then [v.vetted] else TextOf(body)
  {
    OneTurn(start, body, v);
    NotTextSaysNothing(body);
    TurnsSayWhatIsSpoken(NotText(body), Spoken(TextOf(body), v));
    SpokenSays(TextOf(body), v);
  }

  lemma SpokenSays(texts: seq<string>, v: Verdict)
    ensures TextsOut(Spoken(texts, v)) == if AllSpaces(texts) then [] else if v.Violated? then [v.vetted] else texts
  {
    BlankIsAllSpaces(texts);
    TextsSay(texts);
    if v.Violated? { RunOneOut(Down(Text(v.vetted))); }
  }

  lemma BlankIsAllSpaces(texts: seq<string>)
    ensures Blank(texts) <==> AllSpaces(texts)
  {
    forall c ensures c in Join(texts) <==> exists k :: 0 <= k < |texts| && c in texts[k] {
      CharactersOf(texts, c);
    }
    if Blank(texts) {
      forall k, j | 0 <= k < |texts| && 0 <= j < |texts[k]| ensures IsSpace(texts[k][j]) {
        assert texts[k][j] in texts[k];
      }
    }
  }

  lemma {:induction false} ScanIsRemembered(events: seq<Event>)
    ensures Remembers(Run(Block, IDLE, events).0, Scanned(events))
    decreases |events|
  {
    if events != [] { ScanIsRemembered(events[..|events| - 1]); }
  }

  lemma StepConserves(s: State, scan: Scan, e: Event)
    requires !e.verdict.Violated? && Remembers(s, scan)
    ensures var (t, out) := Step(Block, s, e);
            var given := Held(s) + if IsText(e.packet) then [e.packet.frame.text] else [];
            && |TextsOut(out) + Held(t)| + (if Breaks(scan, e.packet) then |scan.said| else 0) == |given|
            && (!Breaks(scan, e.packet) ==> TextsOut(out) + Held(t) == given)
  {
    var (t, out) := Step(Block, s, e);
    RunOneOut(e.packet);
    if e.packet.downstream && e.packet.frame.TurnEnd? {
      var said := if s.holding then Spoken(s.buffer, e.verdict) else [];
      TextsOutAppend(said, [e.packet]);
      TextsSay(s.buffer);
      assert TextsOut([]) == [];
      assert out == said + [e.packet];
      if s.holding && s.buffer == [] { assert Blank(s.buffer); }
    }
  }

  lemma RunOneOut(p: Packet)
    ensures TextsOut([p]) == if IsText(p) then [p.frame.text] else []
  {
    assert [p][..0] == [];
    assert TextsOut([]) == [];
  }

  lemma UnbrokenBefore(events: seq<Event>)
    requires events != []
    ensures var init, last := events[..|events| - 1], events[|events| - 1];
            Unbroken(events) <==> Unbroken(init) && !Breaks(Scanned(init), last.packet)
  {
    var init := events[..|events| - 1];
    forall k | 0 <= k < |init|
      ensures Breaks(Scanned(events[..k]), events[k].packet) == Breaks(Scanned(init[..k]), init[k].packet)
    {
      assert events[..k] == init[..k];
    }
    assert events[..|init|] == init;
    if Unbroken(events) {
      forall k | 0 <= k < |init| ensures !Breaks(Scanned(init[..k]), init[k].packet) {
        assert !Breaks(Scanned(events[..k]), events[k].packet);
      }
    }
  }

  /** Text is conserved, in order, by a stream of any shape exactly if no frame breaks a
      turn: what came out and what is still held is what came in. Otherwise it is less. */
  lemma {:induction false} ConservedExactlyIfUnbroken(events: seq<Event>)
    requires NeverViolated(events)
    ensures var (t, out) := Run(Block, IDLE, events);
            && |TextsOut(out) + Held(t)| <= |TextOf(events)|
            && (Unbroken(events) ==> TextsOut(out) + Held(t) == TextOf(events))
            && (!Unbroken(events) ==> |TextsOut(out) + Held(t)| < |TextOf(events)|)
    decreases |events|
  {
    if events == [] {
      assert TextsOut([]) == [];
    } else {
      var init, last := events[..|events| - 1], events[|events| - 1];
      assert forall e | e in init :: e in events;
      assert last in events;
      var (mid, out) := Run(Block, IDLE, init);
      var (t, more) := Step(Block, mid, last);
      ConservedExactlyIfUnbroken(init);
      ScanIsRemembered(init);
      UnbrokenBefore(events);
      StepConserves(mid, Scanned(init), last);
      TextsOutAppend(out, more);
      var said := if IsText(last.packet) then [last.packet.frame.text] else [];
      Regrouped(TextsOut(out), TextsOut(more), Held(t), Held(mid), said, TextOf(init));
    }
  }

  lemma Regrouped(out: seq<string>, more: seq<string>, held: seq<string>, mid: seq<string>, said: seq<string>,
                  given: seq<string>)
    ensures more + held == mid + said && out + mid == given ==> (out + more) + held == given + said
  {
    if more + held == mid + said && out + mid == given {
      assert (out + more) + held == out + (more + held);
      assert out + (mid + said) == (out + mid) + said;
    }
  }

  /** A turn that is started again loses every word of it. */
  lemma ARestartedTurnIsLost(texts: seq<string>, v: Verdict)
    ensures Step(Block, State(texts, true), Event(Down(TurnStart), v)) == (State([], true), [Down(TurnStart)])
    ensures texts != [] ==> Breaks(Scan(true, texts), Down(TurnStart))
  {
  }

  // ----------------------------------------------------------------- the processor

  class GuardrailProcessor {
    const mode: Mode
    var buffer: seq<string>
    var holding: bool
    var pushed: seq<Packet>

    constructor (m: Mode)
      ensures mode == m && Snap() == IDLE && pushed == []
    {
      mode, buffer, holding, pushed := m, [], false, [];
    }

    function Snap(): State
      reads this
    {
      State(buffer, holding)
    }

    method Push(p: Packet)
      modifies `pushed
      ensures pushed == old(pushed) + [p]
    {
      pushed := pushed + [p];
    }

    /** `process_frame`. */
    method ProcessFrame(p: Packet, verdict: Verdict)
      modifies this
      ensures (Snap(), pushed) == (Step(mode, old(Snap()), Event(p, verdict)).0,
                                   old(pushed) + Step(mode, old(Snap()), Event(p, verdict)).1)
    {
      if mode.Off? || !p.downstream {
        Push(p);
        return;
      }
      match p.frame {
        case TurnStart =>
          buffer := [];
          holding := mode.Block?;
          Push(p);
        case Text(text) =>
          buffer := buffer + [text];
          if !holding { Push(p); }
          assert old(pushed) + [] == old(pushed);
        case TurnEnd => FinishTurn(p, verdict);
        case Other(_) => Push(p);
      }
    }

    /** `_finish_turn`. */
    method FinishTurn(end: Packet, verdict: Verdict)
      modifies this
      ensures Snap() == IDLE
      ensures pushed == old(pushed) + ((if old(holding) then Spoken(old(buffer), verdict) else []) + [end])
    {
      var buffered, held := buffer, holding;
      buffer, holding := [], false;
      if Blank(buffered) {
        Push(end);
        return;
      }
      match verdict {
        case Violated(vetted) =>
          if held { Push(Down(Text(vetted))); }
          Push(end);
        case _ => Release(buffered, held, end);
      }
    }

    /** `_release`. */
    method Release(buffered: seq<string>, held: bool, end: Packet)
      modifies `pushed
      ensures pushed == old(pushed) + ((if held then Texts(buffered) else []) + [end])
    {
      if held {
        for k := 0 to |buffered|
          invariant pushed == old(pushed) + Texts(buffered[..k])
        {
          Push(Down(Text(buffered[k])));
          assert Texts(buffered[..k + 1]) == Texts(buffered[..k]) + [Down(Text(buffered[k]))];
        }
        assert buffered[..|buffered|] == buffered;
      }
      Push(end);
    }
  }
}
