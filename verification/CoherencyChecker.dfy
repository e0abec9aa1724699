/** The coherency checker: harts pass rows around by writing the next recipient into them. A row's recipient
    byte is a token; in every interleaving the owner's check of its row finds nothing wrong. */
module CoherencyChecker {
  import opened Division
  import opened Words

  const DATA_WORDS: nat := 3
  const RCP_ID_DEFAULT: nat := 0x1D00_0000_0000_0000

  /** `rows` is the number of rows and harts, `data` the fill word of each row, `next` the random sequence. */
  datatype Params = Params(rows: nat, maxHops: nat, circuits: nat, data: nat -> Word, next: Word -> Word) {
    /** There are 64 words of row data. */
    predicate Valid() {
      0 < rows <= 64 && 0 < maxHops
    }
  }

  datatype Row = Row(recipientId: nat, numHops: nat, maxHops: nat, origId: nat, payload: Word, other: seq<Word>)

  /** The hart whose turn it is: the low byte. */
  function Recipient(row: Row): nat {
    row.recipientId % 256
  }

  /** What a hart does to its own row before it announces itself. */
  datatype InitPc =
    | SetRecipient | SetOrigin | SetOther(dw: nat) | SetHops | SetLimit | SetPayload | SetPrivate | Announce

  /** The three passes over the data words. */
  datatype Pass = Save | Scramble | PutBack

  /** Counting a hop and passing the row on. */
  datatype HopPc = AddHop | AddPayload | LoadHops | LoadLimit | AskOwner | PassOn | LoadOrigin | SendBack

  /** The owner's check at the end of a circuit. */
  datatype OwnPc =
    | CheckPayload | CheckPrivate | CheckHops | CountCircuit | LoadCircuits | StopNow
    | ResetHops | ResetLimit | ResetPayload | ResetPrivate | Restart

  /** What a hart does to a row it holds. */
  datatype HoldPc = Words(pass: Pass, dw: nat) | Hop(hop: HopPc) | Own(own: OwnPc)

  datatype Pc = Init(init: InitPc) | Await(i: nat) | Loop | Scan | Hold(hold: HoldPc) | Fail | FailStop | Done

  /** `number` and `word` are registers for loaded values. */
  datatype Hart = Hart(pc: Pc, row: nat, tmp: seq<Word>, errors: nat, lfsr: Word, number: nat, word: Word)

  datatype State = State(rows: seq<Row>, priv: seq<Word>, ready: seq<bool>, harts: seq<Hart>, circuitsDone: nat,
                         stop: bool, failed: bool)

  // ---- steps, one shared access each -----------------------------------------------------------------------

  predicate HartShape(p: Params, x: Hart) {
    && |x.tmp| == DATA_WORDS && x.row <= p.rows
    && match x.pc
       case Init(SetOther(dw)) => dw < DATA_WORDS
       case Await(i) => i <= p.rows
       case Hold(hold) => x.row < p.rows && (hold.Words? ==> hold.dw < DATA_WORDS)
       case _ => true
  }

  predicate RowShape(row: Row) {
    |row.other| == DATA_WORDS
  }

  predicate Shape(p: Params, s: State) {
    && p.Valid() && |s.rows| == |s.priv| == |s.ready| == |s.harts| == p.rows
    && (forall r :: 0 <= r < p.rows ==> RowShape(s.rows[r]))
    && (forall h :: 0 <= h < p.rows ==> HartShape(p, s.harts[h]))
  }

  /** Hart `h` prepares its row. */
  function InitStep(p: Params, h: nat, x: Hart, row: Row): (r: (Hart, Row))
    requires p.Valid() && x.pc.Init? && HartShape(p, x) && RowShape(row)
    ensures HartShape(p, r.0) && RowShape(r.1)
  {
    match x.pc.init
    case SetRecipient => (x.(pc := Init(SetOrigin)), row.(recipientId := h))
    case SetOrigin => (x.(pc := Init(SetOther(0))), row.(origId := h))
    case SetOther(dw) =>
      (x.(pc := Init(if dw + 1 < DATA_WORDS then SetOther(dw + 1) else SetHops)),
       row.(other := row.other[dw := p.data(h)]))
    case SetHops => (x.(pc := Init(SetLimit)), row.(numHops := 0))
    case SetLimit => (x.(pc := Init(SetPayload)), row.(maxHops := x.lfsr % p.maxHops))
    case SetPayload => (x.(pc := Init(SetPrivate)), row.(payload := x.lfsr))
    case SetPrivate => (x.(pc := Init(Announce)), row)
    case Announce => (x.(pc := Await(0), lfsr := p.next(x.lfsr)), row)
  }

  /** What a hart in a row sees and changes; `priv` is its own private payload. */
  datatype View = View(x: Hart, row: Row, priv: Word, circuitsDone: nat, stop: bool)

  predicate ViewShape(p: Params, v: View) {
    HartShape(p, v.x) && RowShape(v.row)
  }

  /** The word written between saving and putting back. */
  function Junk(h: nat, row: nat, dw: nat): Word
    requires h < 64 && row < 64 && dw < DATA_WORDS
  {
    0xFFFF_FFFF_0000_0000 + row * 65536 + h * 256 + dw
  }

  /** The word after `dw`, or the first of the next pass, or the counting. */
  function NextWord(pass: Pass, dw: nat): HoldPc {
    if dw + 1 < DATA_WORDS then Words(pass, dw + 1)
    else match pass
      case Save => Words(Scramble, 0)
      case Scramble => Words(PutBack, 0)
      case PutBack => Hop(AddHop)
  }

  function WordStep(p: Params, h: nat, v: View): (w: View)
    requires p.Valid() && h < p.rows && ViewShape(p, v) && v.x.pc.Hold? && v.x.pc.hold.Words?
    ensures ViewShape(p, w)
  {
    var x, row, dw := v.x, v.row, v.x.pc.hold.dw;
    var pc := Hold(NextWord(x.pc.hold.pass, dw));
    match x.pc.hold.pass
    case Save => v.(x := x.(tmp := x.tmp[dw := row.other[dw]], pc := pc))
    case Scramble => v.(row := row.(other := row.other[dw := Junk(h, x.row, dw)]), x := x.(pc := pc))
    case PutBack => v.(row := row.(other := row.other[dw := x.tmp[dw]]), x := x.(pc := pc))
  }

  function NextRow(x: Hart): Hart {
    x.(pc := Scan, row := x.row + 1)
  }

  function GoOn(v: View, hop: HopPc): View {
    v.(x := v.x.(pc := Hold(Hop(hop))))
  }

  function HopStep(p: Params, h: nat, v: View): (w: View)
    requires p.Valid() && h < p.rows && ViewShape(p, v) && v.x.pc.Hold? && v.x.pc.hold.Hop?
    ensures ViewShape(p, w)
  {
    var x, row := v.x, v.row;
    match x.pc.hold.hop
    case AddHop => GoOn(v.(row := row.(numHops := row.numHops + 1)), AddPayload)
    case AddPayload => GoOn(v.(row := row.(payload := (row.payload + 1) % WORDS)), LoadHops)
    case LoadHops => v.(x := x.(number := row.numHops, pc := Hold(Hop(LoadLimit))))
    case LoadLimit => GoOn(v, if x.number > row.maxHops then AskOwner else PassOn)
    case AskOwner => if row.origId == h then v.(x := x.(pc := Hold(Own(CheckPayload)))) else GoOn(v, LoadOrigin)
    case PassOn => v.(row := row.(recipientId := RCP_ID_DEFAULT + x.lfsr % p.rows), x := NextRow(x))
    case LoadOrigin => v.(x := x.(number := row.origId, pc := Hold(Hop(SendBack))))
    case SendBack => v.(row := row.(recipientId := x.number), x := NextRow(x))
  }

  /** Errors the owner counts in the saved words. */
  function WrongWords(tmp: seq<Word>, base: Word): nat {
    if tmp == [] then 0 else (if tmp[0] != base then 1 else 0) + WrongWords(tmp[1..], base)
  }

  function Then(v: View, own: OwnPc): View {
    v.(x := v.x.(pc := Hold(Own(own))))
  }

  function OwnStep(p: Params, h: nat, v: View): (w: View)
    requires p.Valid() && h < p.rows && ViewShape(p, v) && v.x.pc.Hold? && v.x.pc.hold.Own?
    ensures ViewShape(p, w)
  {
    var x, row := v.x, v.row;
    match x.pc.hold.own
    case CheckPayload =>
      Then(v.(x := x.(word := row.payload, errors := x.errors + WrongWords(x.tmp, p.data(x.row)))), CheckPrivate)
    case CheckPrivate => Then(v.(x := x.(number := v.priv)), CheckHops)
    case CheckHops =>
      var wrong := if x.word != (x.number + row.numHops) % WORDS then 1 else 0;
      Then(v.(x := x.(errors := x.errors + wrong)), CountCircuit)
    case CountCircuit => Then(v.(circuitsDone := v.circuitsDone + 1), LoadCircuits)
    case LoadCircuits => Then(v, if v.circuitsDone >= p.circuits then StopNow else ResetHops)
    case StopNow => v.(stop := true, x := x.(pc := Loop))
    case ResetHops => Then(v.(row := row.(numHops := 0)), ResetLimit)
    case ResetLimit => Then(v.(row := row.(maxHops := x.lfsr % p.maxHops)), ResetPayload)
    case ResetPayload => Then(v.(row := row.(payload := x.lfsr)), ResetPrivate)
    case ResetPrivate => Then(v.(priv := x.lfsr), Restart)
    case Restart =>
      v.(row := row.(recipientId := RCP_ID_DEFAULT + (x.lfsr / 65536) % p.rows),
         x := if x.errors > 0 then x.(pc := Fail) else NextRow(x))
  }

  function HoldStep(p: Params, h: nat, v: View): (w: View)
    requires p.Valid() && h < p.rows && ViewShape(p, v) && v.x.pc.Hold?
    ensures ViewShape(p, w)
  {
    match v.x.pc.hold
    case Words(_, _) => WordStep(p, h, v)
    case Hop(_) => HopStep(p, h, v)
    case Own(_) => OwnStep(p, h, v)
  }

  function Put(p: Params, s: State, h: nat, x: Hart): (r: State)
    requires Shape(p, s) && h < p.rows && HartShape(p, x)
    ensures Shape(p, r)
  {
    s.(harts := s.harts[h := x])
  }

  function PutRow(p: Params, s: State, r: nat, row: Row): (t: State)
    requires Shape(p, s) && r < p.rows && RowShape(row)
    ensures Shape(p, t)
  {
    s.(rows := s.rows[r := row])
  }

  function InitPut(p: Params, s: State, h: nat): (r: State)
    requires Shape(p, s) && h < p.rows && s.harts[h].pc.Init?
    ensures Shape(p, r)
  {
    var x := s.harts[h];
    var (x', row') := InitStep(p, h, x, s.rows[h]);
    Put(p, PutRow(p, s.(priv := if x.pc.init.SetPrivate? then s.priv[h := x.lfsr] else s.priv,
                        ready := if x.pc.init.Announce? then s.ready[h := true] else s.ready), h, row'), h, x')
  }

  function ViewOf(p: Params, s: State, h: nat): View
    requires Shape(p, s) && h < p.rows && s.harts[h].pc.Hold?
  {
    View(s.harts[h], s.rows[s.harts[h].row], s.priv[h], s.circuitsDone, s.stop)
  }

  /** Store what hart `h` made of its view. */
  function StoreView(p: Params, s: State, h: nat, r: nat, w: View): (t: State)
    requires Shape(p, s) && h < p.rows && r < p.rows && ViewShape(p, w)
    ensures Shape(p, t)
  {
    Put(p, PutRow(p, s.(priv := s.priv[h := w.priv], circuitsDone := w.circuitsDone, stop := w.stop), r, w.row), h, w.x)
  }

  /** The next shared access of hart `h`. */
  function Step(p: Params, s: State, h: nat): (r: State)
    requires Shape(p, s) && h < p.rows
    ensures Shape(p, r)
  {
    var x := s.harts[h];
    match x.pc
    case Init(_) => InitPut(p, s, h)
    case Await(i) =>
      if i == p.rows then Put(p, s, h, x.(pc := Loop))
      else if s.ready[i] then Put(p, s, h, x.(pc := Await(i + 1)))
      else s
    case Loop =>
      Put(p, s, h, if s.stop then x.(pc := Done) else x.(pc := Scan, row := 0, errors := 0, tmp := [0, 0, 0]))
    case Scan =>
      Put(p, s, h,
          if x.row == p.rows then x.(pc := Loop, lfsr := p.next(x.lfsr))
          else if Recipient(s.rows[x.row]) == h then x.(pc := Hold(Words(Save, 0)))
          else x.(row := x.row + 1))
    case Hold(_) => StoreView(p, s, h, x.row, HoldStep(p, h, ViewOf(p, s, h)))
    case Fail => Put(p, s.(failed := true), h, x.(pc := FailStop))
    case FailStop => Put(p, s.(stop := true), h, x.(pc := Loop))
    case Done => s
  }

  /** Nothing is assumed of the rows: only that no hart is ready and no flag is set. */
  ghost predicate IsInitial(p: Params, s: State) {
    && Shape(p, s) && !s.failed && !s.stop
    && (forall h :: 0 <= h < p.rows ==> !s.ready[h])
    && (forall h :: 0 <= h < p.rows ==> s.harts[h].pc == Init(SetRecipient) && s.harts[h].errors == 0)
  }

  ghost function Run(p: Params, s: State, order: seq<nat>): (r: State)
    requires Shape(p, s) && forall k :: 0 <= k < |order| ==> order[k] < p.rows
    ensures Shape(p, r)
  {
    if order == [] then s else Step(p, Run(p, s, order[..|order| - 1]), order[|order| - 1])
  }

  // ---- one row and the hart that holds it -------------------------------------------------------------------

  ghost predicate AllAre(words: seq<Word>, n: nat, base: Word)
    requires n <= |words|
  {
    forall i :: 0 <= i < n ==> words[i] == base
  }

  /** The payload has moved as often as the row has hopped. */
  ghost predicate Even(row: Row, priv: Word) {
    row.payload == (priv + row.numHops) % WORDS
  }

  /** A row nobody holds. */
  ghost predicate Rest(p: Params, r: nat, row: Row, priv: Word) {
    && RowShape(row) && AllAre(row.other, DATA_WORDS, p.data(r)) && Even(row, priv)
    && row.numHops <= row.maxHops + 1 && (row.numHops == row.maxHops + 1 ==> Recipient(row) == r)
  }

  /** Words `from` to `to` are the marks hart `h` left in row `r`. */
  ghost predicate Marked(words: seq<Word>, from: nat, to: nat, h: nat, r: nat)
    requires to <= |words| == DATA_WORDS && h < 64 && r < 64
  {
    forall i :: from <= i < to ==> words[i] == Junk(h, r, i)
  }

  /** The saved and the stored data words. */
  ghost predicate DataOk(hold: HoldPc, h: nat, x: Hart, row: Row, base: Word)
    requires |x.tmp| == |row.other| == DATA_WORDS && (hold.Words? ==> hold.dw < DATA_WORDS) && h < 64 && x.row < 64
  {
    match hold
    case Words(Save, dw) => AllAre(x.tmp, dw, base) && AllAre(row.other, DATA_WORDS, base)
    case Words(Scramble, dw) => AllAre(x.tmp, DATA_WORDS, base) && Marked(row.other, 0, dw, h, x.row)
    case Words(PutBack, dw) =>
      AllAre(x.tmp, DATA_WORDS, base) && AllAre(row.other, dw, base) && Marked(row.other, dw, DATA_WORDS, h, x.row)
    case _ => AllAre(x.tmp, DATA_WORDS, base) && AllAre(row.other, DATA_WORDS, base)
  }

  /** The row as it arrived: only its owner gets it with the hops used up. */
  ghost predicate Arrived(own: bool, row: Row, priv: Word) {
    Even(row, priv) && row.numHops <= row.maxHops + 1 && (row.numHops == row.maxHops + 1 ==> own)
  }

  /** One hop later. */
  ghost predicate Hopped(own: bool, row: Row, priv: Word) {
    Even(row, priv) && row.numHops <= row.maxHops + (if own then 2 else 1)
  }

  ghost predicate HopOk(hop: HopPc, own: bool, x: Hart, row: Row, priv: Word) {
    match hop
    case AddHop => Arrived(own, row, priv)
    case AddPayload => row.numHops > 0 && Arrived(own, row.(numHops := row.numHops - 1), priv)
    case LoadHops => Hopped(own, row, priv)
    case LoadLimit => Hopped(own, row, priv) && x.number == row.numHops
    case AskOwner => Hopped(own, row, priv) && row.numHops > row.maxHops
    case PassOn => Even(row, priv) && row.numHops <= row.maxHops
    case LoadOrigin => Hopped(own, row, priv) && row.numHops > row.maxHops && !own
    case SendBack => Hopped(own, row, priv) && row.numHops > row.maxHops && !own && x.number == x.row
  }

  /** The hops at a check: one or two more than the limit. */
  ghost predicate Due(row: Row, priv: Word) {
    Even(row, priv) && row.maxHops + 1 <= row.numHops <= row.maxHops + 2
  }

  /** A row its owner checked and kept: intact, with its hops used up. */
  ghost predicate Kept(p: Params, r: nat, row: Row, priv: Word) {
    RowShape(row) && AllAre(row.other, DATA_WORDS, p.data(r)) && Due(row, priv) && Recipient(row) == r
  }

  ghost predicate OwnOk(own: OwnPc, x: Hart, row: Row, priv: Word) {
    match own
    case CheckPayload => Due(row, priv)
    case CheckPrivate => Due(row, priv) && x.word == row.payload
    case CheckHops => Due(row, priv) && x.word == row.payload && x.number == priv
    case CountCircuit => Due(row, priv)
    case LoadCircuits => Due(row, priv)
    case StopNow => Due(row, priv)
    case ResetHops => true
    case ResetLimit => row.numHops == 0
    case ResetPayload => row.numHops == 0
    case ResetPrivate => row.numHops == 0 && row.payload == x.lfsr
    case Restart => row.numHops == 0 && row.payload == x.lfsr && priv == x.lfsr
  }

  ghost predicate CountOk(hold: HoldPc, own: bool, x: Hart, row: Row, priv: Word) {
    match hold
    case Words(_, _) => Arrived(own, row, priv)
    case Hop(hop) => HopOk(hop, own, x, row, priv)
    case Own(o) => own && OwnOk(o, x, row, priv)
  }

  /** Hart `h` holds its row; `priv` is the private payload of the row's owner. */
  ghost predicate Holds(p: Params, h: nat, x: Hart, row: Row, priv: Word) {
    && p.Valid() && h < p.rows && HartShape(p, x) && x.pc.Hold? && RowShape(row)
    && row.origId == x.row && Recipient(row) == h && x.errors == 0
    && DataOk(x.pc.hold, h, x, row, p.data(x.row))
    && CountOk(x.pc.hold, x.row == h, x, row, priv)
  }

  /** What a step of the holder leads to: it goes on, it lets go of a row at rest, or it stops for good. */
  ghost predicate Onward(p: Params, h: nat, r: nat, w: View, priv: Word) {
    && w.row.origId == r && Recipient(w.row) < p.rows && w.x.errors == 0
    && match w.x.pc
       case Hold(_) => w.x.row == r && Holds(p, h, w.x, w.row, priv)
       case Scan => Rest(p, r, w.row, priv)
       case Loop => w.stop && r == h && Kept(p, r, w.row, priv)
       case _ => false
  }

  /** Hart `h` in a row: `priv` is the owner's private payload, its own if it is the owner. */
  ghost predicate Holding(p: Params, h: nat, v: View, priv: Word) {
    p.Valid() && h < p.rows && ViewShape(p, v) && v.x.pc.Hold? && Holds(p, h, v.x, v.row, priv)
      && (v.x.row == h ==> priv == v.priv)
  }

  lemma NoWrongWords(tmp: seq<Word>, base: Word)
    requires AllAre(tmp, |tmp|, base)
    ensures WrongWords(tmp, base) == 0
  {
  }

  lemma LowByte(p: Params, row: Row, x: nat)
    requires p.Valid() && row.recipientId == RCP_ID_DEFAULT + x % p.rows
    ensures Recipient(row) == x % p.rows < p.rows
  {
  }

  lemma SmallRecipient(p: Params, row: Row)
    requires p.Valid() && row.recipientId < p.rows
    ensures Recipient(row) == row.recipientId
  {
  }

  lemma SameRecipient(row: Row, row': Row)
    requires row'.recipientId == row.recipientId
    ensures Recipient(row') == Recipient(row)
  {
  }

  lemma EvenHop(row: Row, row': Row, priv: Word)
    requires row.numHops > 0 && Even(row.(numHops := row.numHops - 1), priv)
    requires row' == row.(payload := (row.payload + 1) % WORDS)
    ensures Even(row', priv)
  {
    NextRemainder(priv + row.numHops - 1, WORDS, row.payload, row'.payload);
  }

  /** Stated for any modulus. */
  lemma NextRemainder(x: nat, n: nat, before: nat, after: nat)
    requires n > 0 && before == x % n && after == (before + 1) % n
    ensures after == (x + 1) % n
  {
    ModStep(x, n);
  }

  lemma EvenStays(row: Row, row': Row, priv: Word)
    requires Even(row, priv) && row'.numHops == row.numHops && row'.payload == row.payload
    ensures Even(row', priv)
  {
  }

  lemma EvenStart(row: Row)
    requires row.numHops == 0
    ensures Even(row, row.payload)
  {
  }

  /** The data words are saved, overwritten and restored. */
  lemma WordOnward(p: Params, h: nat, v: View, priv: Word)
    requires Holding(p, h, v, priv) && v.x.pc.hold.Words?
    ensures var w := WordStep(p, h, v); Onward(p, h, v.x.row, w, priv) && w.priv == v.priv
  {
    hide Arrived, Junk;
    var w := WordStep(p, h, v);
    assert Arrived(v.x.row == h, w.row, priv) by { ArrivedStays(v.x.row == h, v.row, w.row, priv); }
  }

  lemma ArrivedStays(own: bool, row: Row, row': Row, priv: Word)
    requires Arrived(own, row, priv)
    requires row'.numHops == row.numHops && row'.maxHops == row.maxHops && row'.payload == row.payload
    ensures Arrived(own, row', priv)
  {
  }

  /** The row is counted once. */
  lemma HopGoesOn(p: Params, h: nat, v: View, priv: Word)
    requires Holding(p, h, v, priv) && v.x.pc.hold.Hop? && !v.x.pc.hold.hop.PassOn? && !v.x.pc.hold.hop.SendBack?
    ensures var w := HopStep(p, h, v); Onward(p, h, v.x.row, w, priv) && w.priv == v.priv
  {
    hide AllAre, Recipient, Even;
    var w := HopStep(p, h, v);
    SameRecipient(v.row, w.row);
    match v.x.pc.hold.hop {
      case AddHop => EvenStays(v.row, w.row.(numHops := w.row.numHops - 1), priv);
      case AddPayload => EvenHop(v.row, w.row, priv);
      case _ => EvenStays(v.row, w.row, priv);
    }
  }

  /** The row goes to the next hart, or home. */
  lemma HopLetsGo(p: Params, h: nat, v: View, priv: Word)
    requires Holding(p, h, v, priv) && v.x.pc.hold.Hop? && (v.x.pc.hold.hop.PassOn? || v.x.pc.hold.hop.SendBack?)
    ensures var w := HopStep(p, h, v); Onward(p, h, v.x.row, w, priv) && w.priv == v.priv
  {
    hide AllAre, Recipient, Even;
    var w := HopStep(p, h, v);
    EvenStays(v.row, w.row, priv);
    if v.x.pc.hold.hop.PassOn? {
      LowByte(p, w.row, v.x.lfsr);
    } else {
      SmallRecipient(p, w.row);
    }
  }

  /** The owner's check counts no error. */
  lemma OwnChecks(p: Params, h: nat, v: View, priv: Word)
    requires Holding(p, h, v, priv) && v.x.pc.hold.Own?
    requires v.x.pc.hold.own.CheckPayload? || v.x.pc.hold.own.CheckPrivate? || v.x.pc.hold.own.CheckHops?
    ensures var w := OwnStep(p, h, v); v.x.row == h && Onward(p, h, h, w, w.priv)
  {
    hide WrongWords, Recipient;
    if v.x.pc.hold.own.CheckPayload? {
      NoWrongWords(v.x.tmp, p.data(v.x.row));
    }
    SameRecipient(v.row, OwnStep(p, h, v).row);
  }

  /** The row starts over. */
  lemma OwnRestarts(p: Params, h: nat, v: View, priv: Word)
    requires Holding(p, h, v, priv) && v.x.pc.hold.Own?
    requires !(v.x.pc.hold.own.CheckPayload? || v.x.pc.hold.own.CheckPrivate? || v.x.pc.hold.own.CheckHops?)
    ensures var w := OwnStep(p, h, v); v.x.row == h && Onward(p, h, h, w, w.priv)
  {
    hide WrongWords, AllAre, Even, Recipient;
    var w := OwnStep(p, h, v);
    if v.x.pc.hold.own.Restart? {
      LowByte(p, w.row, v.x.lfsr / 65536);
      EvenStart(w.row);
    } else {
      SameRecipient(v.row, w.row);
    }
  }

  lemma OwnOnward(p: Params, h: nat, v: View, priv: Word)
    requires Holding(p, h, v, priv) && v.x.pc.hold.Own?
    ensures var w := OwnStep(p, h, v); v.x.row == h && Onward(p, h, h, w, w.priv)
  {
    hide OwnStep, Onward, Holds;
    if v.x.pc.hold.own.CheckPayload? || v.x.pc.hold.own.CheckPrivate? || v.x.pc.hold.own.CheckHops? {
      OwnChecks(p, h, v, priv);
    } else {
      OwnRestarts(p, h, v, priv);
    }
  }

  lemma HopOnward(p: Params, h: nat, v: View, priv: Word)
    requires Holding(p, h, v, priv) && v.x.pc.hold.Hop?
    ensures var w := HopStep(p, h, v); Onward(p, h, v.x.row, w, priv) && w.priv == v.priv
  {
    hide HopStep, Onward, Holds;
    if v.x.pc.hold.hop.PassOn? || v.x.pc.hold.hop.SendBack? {
      HopLetsGo(p, h, v, priv);
    } else {
      HopGoesOn(p, h, v, priv);
    }
  }

  lemma HolderStep(p: Params, h: nat, v: View, priv: Word)
    requires Holding(p, h, v, priv)
    ensures var w := HoldStep(p, h, v);
      Onward(p, h, v.x.row, w, if v.x.row == h then w.priv else priv) && (v.x.row != h ==> w.priv == v.priv)
  {
    hide WordStep, HopStep, OwnStep, Onward, Holds;
    match v.x.pc.hold
    case Words(_, _) => WordOnward(p, h, v, priv);
    case Hop(_) => HopOnward(p, h, v, priv);
    case Own(_) => OwnOnward(p, h, v, priv);
  }

  // ---- all rows and harts ---------------------------------------------------------------------------------

  ghost predicate InitOk(p: Params, r: nat, x: Hart, row: Row, priv: Word)
    requires x.pc.Init? && HartShape(p, x) && RowShape(row)
  {
    match x.pc.init
    case SetRecipient => true
    case SetOrigin => row.recipientId == r
    case SetOther(dw) => row.recipientId == r && row.origId == r && AllAre(row.other, dw, p.data(r))
    case SetHops => row.recipientId == r && row.origId == r && AllAre(row.other, DATA_WORDS, p.data(r))
    case _ =>
      && row.recipientId == r && row.origId == r && AllAre(row.other, DATA_WORDS, p.data(r)) && row.numHops == 0
      && (x.pc.init.SetPrivate? || x.pc.init.Announce? ==> row.payload == x.lfsr)
      && (x.pc.init.Announce? ==> priv == x.lfsr)
  }

  ghost predicate AllReady(p: Params, s: State, n: nat)
    requires Shape(p, s) && n <= p.rows
  {
    forall h :: 0 <= h < n ==> s.ready[h]
  }

  ghost predicate HartOk(p: Params, s: State, h: nat)
    requires Shape(p, s) && h < p.rows
  {
    var x := s.harts[h];
    && x.errors == 0 && s.ready[h] == !x.pc.Init?
    && match x.pc
       case Init(_) => true
       case Await(i) => AllReady(p, s, i)
       case Hold(_) => AllReady(p, s, p.rows) && Holds(p, h, x, s.rows[x.row], s.priv[x.row])
       case Fail => false
       case FailStop => false
       case _ => AllReady(p, s, p.rows)
  }

  /** The recipient is at work on row `r`. */
  ghost predicate Held(p: Params, s: State, r: nat)
    requires Shape(p, s) && r < p.rows
  {
    var h := Recipient(s.rows[r]);
    h < p.rows && s.harts[h].pc.Hold? && s.harts[h].row == r
  }

  /** The owner stopped with the row in its hands. */
  ghost predicate Abandoned(p: Params, s: State, r: nat)
    requires Shape(p, s) && r < p.rows
  {
    s.stop && Kept(p, r, s.rows[r], s.priv[r]) && (s.harts[r].pc.Loop? || s.harts[r].pc.Done?)
  }

  ghost predicate RowOk(p: Params, s: State, r: nat)
    requires Shape(p, s) && r < p.rows
  {
    if s.ready[r] then
      && s.rows[r].origId == r && Recipient(s.rows[r]) < p.rows
      && (Held(p, s, r) || Rest(p, r, s.rows[r], s.priv[r]) || Abandoned(p, s, r))
    else
      s.harts[r].pc.Init? && InitOk(p, r, s.harts[r], s.rows[r], s.priv[r])
  }

  ghost predicate Inv(p: Params, s: State) {
    && Shape(p, s) && !s.failed
    && (forall h :: 0 <= h < p.rows ==> HartOk(p, s, h))
    && (forall r :: 0 <= r < p.rows ==> RowOk(p, s, r))
  }

  lemma InitialOk(p: Params, s: State)
    requires IsInitial(p, s)
    ensures Inv(p, s)
  {
  }

  /** Hart `g` does not notice a step that leaves it and the row it holds alone. */
  lemma HartKept(p: Params, s: State, t: State, g: nat)
    requires Shape(p, s) && Shape(p, t) && g < p.rows && HartOk(p, s, g)
    requires t.harts[g] == s.harts[g] && t.ready[g] == s.ready[g]
    requires forall h :: 0 <= h < p.rows && s.ready[h] ==> t.ready[h]
    requires var x := s.harts[g]; x.pc.Hold? ==> t.rows[x.row] == s.rows[x.row] && t.priv[x.row] == s.priv[x.row]
    ensures HartOk(p, t, g)
  {
    hide Holds;
  }

  /** Nor does row `r` notice a step of a hart that did not hold it and is not its owner. */
  lemma RowKept(p: Params, s: State, t: State, h: nat, r: nat)
    requires Shape(p, s) && Shape(p, t) && h < p.rows && r < p.rows && h != r && RowOk(p, s, r)
    requires t.rows[r] == s.rows[r] && t.priv[r] == s.priv[r] && t.ready[r] == s.ready[r] && (s.stop ==> t.stop)
    requires forall g :: 0 <= g < p.rows && g != h ==> t.harts[g] == s.harts[g]
    requires s.harts[h].pc.Hold? ==> s.harts[h].row != r
    ensures RowOk(p, t, r)
  {
    hide Rest, Kept, InitOk, Recipient;
  }

  lemma InitRow(p: Params, h: nat, x: Hart, row: Row, priv: Word)
    requires p.Valid() && h < p.rows && HartShape(p, x) && x.pc.Init? && RowShape(row) && InitOk(p, h, x, row, priv)
    ensures var (x', row') := InitStep(p, h, x, row);
      var priv' := if x.pc.init.SetPrivate? then x.lfsr else priv;
      && (x'.pc.Init? ==> InitOk(p, h, x', row', priv')) && x'.errors == x.errors
      && x'.pc.Init? == !x.pc.init.Announce? && (x'.pc.Init? || x'.pc == Await(0))
  {
  }

  lemma InitDone(p: Params, h: nat, x: Hart, row: Row, priv: Word)
    requires p.Valid() && h < p.rows && HartShape(p, x) && x.pc == Init(Announce) && RowShape(row)
    requires InitOk(p, h, x, row, priv)
    ensures InitStep(p, h, x, row).1 == row && row.origId == h && Recipient(row) == h && Rest(p, h, row, priv)
  {
  }

  lemma InitKeeps(p: Params, s: State, h: nat)
    requires Inv(p, s) && h < p.rows && s.harts[h].pc.Init?
    ensures Inv(p, Step(p, s, h))
  {
    hide InitStep, InitOk, Rest, Holds, Recipient;
    var t := Step(p, s, h);
    var x := s.harts[h];
    assert HartOk(p, s, h) && RowOk(p, s, h);
    InitRow(p, h, x, s.rows[h], s.priv[h]);
    if x.pc.init.Announce? {
      InitDone(p, h, x, s.rows[h], s.priv[h]);
    }
    forall g | 0 <= g < p.rows && g != h
      ensures HartOk(p, t, g)
    {
      HartKept(p, s, t, g);
    }
    forall r | 0 <= r < p.rows && r != h
      ensures RowOk(p, t, r)
    {
      RowKept(p, s, t, h, r);
    }
  }

  /** A step of hart `h` that neither takes nor changes a row. */
  ghost predicate Looks(p: Params, s: State, h: nat)
    requires Shape(p, s) && h < p.rows
  {
    var pc := s.harts[h].pc;
    (pc.Await? || pc.Loop? || pc.Scan? || pc.Done?) && !Step(p, s, h).harts[h].pc.Hold?
  }

  lemma LookKeepsHart(p: Params, s: State, h: nat)
    requires Shape(p, s) && h < p.rows && HartOk(p, s, h) && Looks(p, s, h)
    ensures HartOk(p, Step(p, s, h), h)
  {
    hide Holds, Recipient;
  }

  lemma LookKeepsRow(p: Params, s: State, h: nat)
    requires Shape(p, s) && h < p.rows && HartOk(p, s, h) && RowOk(p, s, h) && Looks(p, s, h)
    ensures RowOk(p, Step(p, s, h), h)
  {
    hide Rest, Kept, Holds, Recipient, AllReady;
  }

  /** Nothing but the hart itself changes. */
  lemma LookChanges(p: Params, s: State, h: nat)
    requires Shape(p, s) && h < p.rows && Looks(p, s, h)
    ensures var t := Step(p, s, h); t == s.(harts := s.harts[h := t.harts[h]])
  {
    assert s.harts == s.harts[h := s.harts[h]];
  }

  lemma LookKeeps(p: Params, s: State, h: nat)
    requires Inv(p, s) && h < p.rows && Looks(p, s, h)
    ensures Inv(p, Step(p, s, h))
  {
    hide HartOk, RowOk, Step;
    var t := Step(p, s, h);
    LookKeepsHart(p, s, h);
    LookKeepsRow(p, s, h);
    LookChanges(p, s, h);
    forall g | 0 <= g < p.rows && g != h
      ensures HartOk(p, t, g)
    {
      HartKept(p, s, t, g);
    }
    forall r | 0 <= r < p.rows && r != h
      ensures RowOk(p, t, r)
    {
      RowKept(p, s, t, h, r);
    }
  }

  /** A hart that finds its number in a row finds the row at rest. */
  lemma Takes(p: Params, s: State, h: nat)
    requires Inv(p, s) && h < p.rows && s.harts[h].pc.Scan? && Step(p, s, h).harts[h].pc.Hold?
    ensures var r := s.harts[h].row;
      r < p.rows && Recipient(s.rows[r]) == h && s.rows[r].origId == r && Rest(p, r, s.rows[r], s.priv[r])
  {
    hide Rest, Holds, Recipient;
    assert HartOk(p, s, h);
    assert s.harts[h].row < p.rows;
    assert RowOk(p, s, s.harts[h].row);
  }

  lemma TakeHolds(p: Params, h: nat, x: Hart, row: Row, priv: Word)
    requires p.Valid() && h < p.rows && HartShape(p, x) && x.pc == Hold(Words(Save, 0)) && x.errors == 0
    requires row.origId == x.row && Recipient(row) == h && Rest(p, x.row, row, priv)
    ensures Holds(p, h, x, row, priv)
  {
  }

  lemma TakeKeeps(p: Params, s: State, h: nat)
    requires Inv(p, s) && h < p.rows && s.harts[h].pc.Scan? && Step(p, s, h).harts[h].pc.Hold?
    ensures Inv(p, Step(p, s, h))
  {
    hide InitOk, Rest, Kept, Holds, Recipient;
    var t := Step(p, s, h);
    var r := s.harts[h].row;
    assert HartOk(p, s, h);
    Takes(p, s, h);
    TakeHolds(p, h, t.harts[h], s.rows[r], s.priv[r]);
    forall g | 0 <= g < p.rows && g != h
      ensures HartOk(p, t, g)
    {
      HartKept(p, s, t, g);
    }
    forall q | 0 <= q < p.rows && q != r
      ensures RowOk(p, t, q)
    {
      assert RowOk(p, s, q);
    }
  }

  /** The token: two harts in the same row are one. */
  lemma OneHolder(p: Params, s: State, g: nat, h: nat)
    requires Inv(p, s) && g < p.rows && h < p.rows
    requires s.harts[g].pc.Hold? && s.harts[h].pc.Hold? && s.harts[g].row == s.harts[h].row
    ensures g == h && Recipient(s.rows[s.harts[h].row]) == h
  {
    hide DataOk, CountOk, RowOk;
    assert HartOk(p, s, g) && HartOk(p, s, h);
  }

  lemma HoldKeepsHarts(p: Params, s: State, h: nat, g: nat)
    requires Inv(p, s) && h < p.rows && g < p.rows && g != h && s.harts[h].pc.Hold?
    requires s.harts[h].row != h ==> Step(p, s, h).priv[h] == s.priv[h]
    ensures HartOk(p, Step(p, s, h), g)
  {
    hide InitOk, Rest, Holds, Recipient, HoldStep, RowOk;
    if s.harts[g].pc.Hold? && s.harts[g].row == s.harts[h].row {
      OneHolder(p, s, g, h);
    }
    HartKept(p, s, Step(p, s, h), g);
  }

  lemma HoldKeepsRows(p: Params, s: State, h: nat, q: nat)
    requires Inv(p, s) && h < p.rows && q < p.rows && s.harts[h].pc.Hold? && s.harts[h].row != q
    requires s.harts[h].row != h ==> Step(p, s, h).priv[h] == s.priv[h]
    requires s.stop ==> Step(p, s, h).stop
    ensures RowOk(p, Step(p, s, h), q)
  {
    hide InitOk, Rest, Kept, Holds, Recipient, HoldStep;
    assert HartOk(p, s, h);
    assert RowOk(p, s, q);
  }

  lemma StopStays(p: Params, h: nat, v: View)
    requires p.Valid() && h < p.rows && ViewShape(p, v) && v.x.pc.Hold? && v.stop
    ensures HoldStep(p, h, v).stop
  {
  }

  lemma HoldKeeps(p: Params, s: State, h: nat)
    requires Inv(p, s) && h < p.rows && s.harts[h].pc.Hold?
    ensures Inv(p, Step(p, s, h))
  {
    hide InitOk, Rest, Holds, Recipient, HoldStep, RowOk;
    var t := Step(p, s, h);
    var r := s.harts[h].row;
    var v := ViewOf(p, s, h);
    assert HartOk(p, s, h);
    HolderStep(p, h, v, s.priv[r]);
    if s.stop {
      StopStays(p, h, v);
    }
    forall g | 0 <= g < p.rows && g != h
      ensures HartOk(p, t, g)
    {
      HoldKeepsHarts(p, s, h, g);
    }
    forall q | 0 <= q < p.rows && q != r
      ensures RowOk(p, t, q)
    {
      HoldKeepsRows(p, s, h, q);
    }
    HeldRow(p, t, h, r);
  }

  /** The row just worked on. */
  lemma HeldRow(p: Params, t: State, h: nat, r: nat)
    requires Shape(p, t) && h < p.rows && r < p.rows && t.ready[r]
    requires Onward(p, h, r, View(t.harts[h], t.rows[r], t.priv[h], t.circuitsDone, t.stop), t.priv[r])
    ensures RowOk(p, t, r)
  {
    hide Rest, Recipient, DataOk, CountOk;
  }

  lemma StepKeeps(p: Params, s: State, h: nat)
    requires Inv(p, s) && h < p.rows
    ensures Inv(p, Step(p, s, h))
  {
    hide Step, HartOk, RowOk;
    assert HartOk(p, s, h);
    NeverFailing(p, s, h);
    if s.harts[h].pc.Init? {
      InitKeeps(p, s, h);
    } else if s.harts[h].pc.Hold? {
      HoldKeeps(p, s, h);
    } else if Step(p, s, h).harts[h].pc.Hold? {
      OnlyScanTakes(p, s, h);
      TakeKeeps(p, s, h);
    } else {
      LookKeeps(p, s, h);
    }
  }

  lemma NeverFailing(p: Params, s: State, h: nat)
    requires Shape(p, s) && h < p.rows && HartOk(p, s, h)
    ensures !s.harts[h].pc.Fail? && !s.harts[h].pc.FailStop?
  {
  }

  lemma OnlyScanTakes(p: Params, s: State, h: nat)
    requires Shape(p, s) && h < p.rows && !s.harts[h].pc.Hold? && !s.harts[h].pc.Init?
    requires Step(p, s, h).harts[h].pc.Hold?
    ensures s.harts[h].pc.Scan?
  {
  }

  // ---- what the checker promises ------------------------------------------------------------------------------

  /** In no interleaving is an error reported. */
  lemma {:induction false} NeverFails(p: Params, s: State, order: seq<nat>)
    requires IsInitial(p, s) && forall k :: 0 <= k < |order| ==> order[k] < p.rows
    ensures Inv(p, Run(p, s, order)) && !Run(p, s, order).failed
  {
    hide HartOk, RowOk, Step;
    if order == [] {
      InitialOk(p, s);
    } else {
      NeverFails(p, s, order[..|order| - 1]);
      StepKeeps(p, Run(p, s, order[..|order| - 1]), order[|order| - 1]);
    }
  }

  /** At most one hart is ever in a row, and it is the one the row names. */
  lemma TokenIsExclusive(p: Params, s: State, order: seq<nat>, g: nat, h: nat)
    requires IsInitial(p, s) && (forall k :: 0 <= k < |order| ==> order[k] < p.rows) && g < p.rows && h < p.rows
    requires var t := Run(p, s, order); t.harts[g].pc.Hold? && t.harts[h].pc.Hold? && t.harts[g].row == t.harts[h].row
    ensures g == h && Recipient(Run(p, s, order).rows[Run(p, s, order).harts[h].row]) == h
  {
    hide Run, Inv, Recipient;
    NeverFails(p, s, order);
    OneHolder(p, Run(p, s, order), g, h);
  }

  /** No two harts, rows or words have the same mark. */
  lemma MarksDiffer(h: nat, r: nat, dw: nat, h': nat, r': nat, dw': nat)
    requires h < 64 && r < 64 && dw < DATA_WORDS && h' < 64 && r' < 64 && dw' < DATA_WORDS
    ensures Junk(h, r, dw) == Junk(h', r', dw') ==> h == h' && r == r' && dw == dw'
  {
  }

  /** While a hart overwrites the data words of a row, in any interleaving, they carry its marks and no others, until it
      puts back what it saved. */
  lemma RowIsMarked(p: Params, s: State, order: seq<nat>, h: nat)
    requires IsInitial(p, s) && (forall k :: 0 <= k < |order| ==> order[k] < p.rows) && h < p.rows
    requires Run(p, s, order).harts[h].pc == Hold(Words(PutBack, 0))
    ensures var t := Run(p, s, order); var x := t.harts[h];
      x.row < p.rows && p.rows <= 64 && |t.rows[x.row].other| == DATA_WORDS
      && forall i :: 0 <= i < DATA_WORDS ==> t.rows[x.row].other[i] == Junk(h, x.row, i)
  {
    hide Run, RowOk, CountOk, Recipient, Junk;
    NeverFails(p, s, order);
    assert HartOk(p, Run(p, s, order), h);
  }

  /** A row due for its check: it has hopped once or twice more than its limit, every saved word is the fill word
      and the payload is the private payload plus the hops. */
  ghost predicate DueForCheck(p: Params, t: State, h: nat)
    requires Shape(p, t) && h < p.rows
  {
    var x := t.harts[h];
    && x.row == h && AllAre(x.tmp, DATA_WORDS, p.data(h)) && AllAre(t.rows[h].other, DATA_WORDS, p.data(h))
    && t.rows[h].payload == (t.priv[h] + t.rows[h].numHops) % WORDS
    && t.rows[h].maxHops + 1 <= t.rows[h].numHops <= t.rows[h].maxHops + 2
  }

  lemma HolderIsDue(p: Params, t: State, h: nat)
    requires Shape(p, t) && h < p.rows && HartOk(p, t, h) && t.harts[h].pc == Hold(Own(CheckPayload))
    ensures DueForCheck(p, t, h)
  {
    hide Recipient, AllReady;
  }

  lemma CheckIsDue(p: Params, s: State, order: seq<nat>, h: nat)
    requires IsInitial(p, s) && (forall k :: 0 <= k < |order| ==> order[k] < p.rows) && h < p.rows
    requires Run(p, s, order).harts[h].pc == Hold(Own(CheckPayload))
    ensures DueForCheck(p, Run(p, s, order), h)
  {
    hide Run, RowOk, HartOk, DueForCheck, Shape;
    NeverFails(p, s, order);
    HolderIsDue(p, Run(p, s, order), h);
  }

  /** Between two holders a row is as its owner left it, but for the hops; only a row whose owner ended the test with
      it in its hands has its hops used up. */
  lemma RestingRow(p: Params, s: State, order: seq<nat>, r: nat)
    requires IsInitial(p, s) && (forall k :: 0 <= k < |order| ==> order[k] < p.rows) && r < p.rows
    requires var t := Run(p, s, order); t.ready[r] && !Held(p, t, r)
    ensures var t := Run(p, s, order); Rest(p, r, t.rows[r], t.priv[r]) || (t.stop && Kept(p, r, t.rows[r], t.priv[r]))
  {
    hide Run, Rest, Kept, HartOk, Recipient;
    NeverFails(p, s, order);
    assert RowOk(p, Run(p, s, order), r);
  }
}
