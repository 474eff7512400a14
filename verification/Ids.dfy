/**
 The shared id generator (src/envelope.rs): a UUID laid out as version 7 in section 5.7 of
 RFC 9562, made of a held millisecond and a process-wide counter.
 */
module Ids {
  import opened Wrappers

  const TWO_12: nat := 0x1000
  const TWO_16: nat := 0x1_0000
  const TWO_48: nat := 0x1_0000_0000_0000
  const TWO_50: nat := 0x4_0000_0000_0000
  const TWO_62: nat := 0x4000_0000_0000_0000
  const TWO_63: nat := 0x8000_0000_0000_0000
  const TWO_64: nat := 0x1_0000_0000_0000_0000

  /** The two big-endian halves, as unsigned 64-bit numbers. */
  datatype Uuid = Uuid(high: nat, low: nat)

  /** The millisecond shifted left by 16 within 64 bits, the version nibble, the counter's top 12 bits. */
  function High(millis: nat, counter: nat): nat {
    (millis * TWO_16) % TWO_64 + 0x7000 + (counter / TWO_50) % TWO_12
  }

  function Low(counter: nat): nat { TWO_63 + counter % TWO_62 }

  function Pack(millis: nat, ticket: nat): Uuid {
    var counter := ticket % TWO_62;
    Uuid(High(millis, counter), Low(counter))
  }

  /** The fields occupy disjoint bits, so joining them with "or" is adding them. */
  lemma OrIsPlus(millis: bv64, counter: bv64)
    ensures (millis << 16) | 0x7000 | ((counter >> 50) & 0xFFF) ==
            (millis << 16) + 0x7000 + ((counter >> 50) & 0xFFF)
    ensures 0x8000_0000_0000_0000 | (counter & 0x3FFF_FFFF_FFFF_FFFF) ==
            0x8000_0000_0000_0000 + (counter & 0x3FFF_FFFF_FFFF_FFFF)
  {
  }

  function Version(id: Uuid): nat { (id.high / TWO_12) % 16 }

  function Variant(id: Uuid): nat { id.low / TWO_62 }

  function MillisOf(id: Uuid): nat { id.high / TWO_16 }

  function RandA(id: Uuid): nat { id.high % TWO_12 }

  function RandB(id: Uuid): nat { id.low % TWO_62 }

  /** The order of the rendered ids. */
  predicate Before(a: Uuid, b: Uuid) {
    a.high < b.high || (a.high == b.high && a.low < b.low)
  }

  lemma ShiftedMillis(m: nat)
    ensures (m * TWO_16) % TWO_64 == (m % TWO_48) * TWO_16
  {
  }

  lemma CounterFields(c: nat)
    requires c < TWO_62
    ensures c / TWO_50 < TWO_12 && (TWO_63 + c) / TWO_62 == 2 && (TWO_63 + c) % TWO_62 == c
  {
  }

  lemma HighFields(m: nat, top: nat)
    requires m < TWO_48 && top < TWO_12
    ensures var high := m * TWO_16 + 0x7000 + top;
            high < TWO_64 && (high / TWO_12) % 16 == 7 && high / TWO_16 == m && high % TWO_12 == top
  {
    assert m * TWO_16 + 0x7000 + top == TWO_12 * (16 * m + 7) + top;
  }

  /** The fields of section 5.7: version, variant, the millisecond and the counter come back. */
  lemma Layout(millis: nat, ticket: nat)
    ensures var id := Pack(millis, ticket);
            && id.high < TWO_64 && id.low < TWO_64
            && Version(id) == 7 && Variant(id) == 2
            && MillisOf(id) == millis % TWO_48
            && RandB(id) == ticket % TWO_62 && RandA(id) == RandB(id) / TWO_50
  {
    var m, c := millis % TWO_48, ticket % TWO_62;
    ShiftedMillis(millis);
    CounterFields(c);
    assert (c / TWO_50) % TWO_12 == c / TWO_50;
    HighFields(m, c / TWO_50);
  }

  /** Two mints collide exactly when they share the low 62 bits of the counter and the low 48 of the time. */
  lemma CollideIff(m: nat, t: nat, m': nat, t': nat)
    ensures Pack(m, t) == Pack(m', t') <==> m % TWO_48 == m' % TWO_48 && t % TWO_62 == t' % TWO_62
  {
    Layout(m, t);
    Layout(m', t');
    ShiftedMillis(m);
    ShiftedMillis(m');
  }

  /** A later ticket at the same or a later millisecond renders after. */
  lemma PackOrders(m: nat, t: nat, m': nat, t': nat)
    requires m <= m' < TWO_48 && t < t' < TWO_62
    ensures Before(Pack(m, t), Pack(m', t'))
  {
    assert t / TWO_50 <= t' / TWO_50 < TWO_12;
    assert m < m' ==> m * TWO_16 + TWO_16 <= m' * TWO_16;
  }

  // ---- Every interleaving of the callers ----

  /** Where a caller is between its atomic operations. */
  datatype Phase = Idle | Loaded(raw: nat, last: nat) | Held(millis: nat)

  /** What a caller has read of the high-water mark so far never goes back. */
  datatype Caller = Caller(phase: Phase, seen: nat)

  datatype Mint = Mint(caller: nat, millis: nat, ticket: nat, id: Uuid)

  datatype World = World(lastMillis: nat, counter: nat, callers: map<nat, Caller>, minted: seq<Mint>)

  /** `Load` and a failed exchange may read any value between what the caller saw and the newest. */
  datatype Move =
    | Load(caller: nat, raw: nat, last: nat)
    | Keep(caller: nat)
    | Exchange(caller: nat)
    | Retry(caller: nat, last: nat)
    | Take(caller: nat)

  const START := World(0, 1, map[], [])

  function CallerOf(w: World, c: nat): Caller {
    if c in w.callers then w.callers[c] else Caller(Idle, 0)
  }

  /** The clock fits 48 bits and fewer than 2^62 ids were minted. */
  predicate Legal(w: World, move: Move) {
    match move
    case Load(c, raw, last) =>
      CallerOf(w, c).phase.Idle? && raw < TWO_48 && CallerOf(w, c).seen <= last <= w.lastMillis
    case Keep(c) =>
      var phase := CallerOf(w, c).phase;
      phase.Loaded? && phase.raw <= phase.last
    case Exchange(c) =>
      var phase := CallerOf(w, c).phase;
      phase.Loaded? && phase.raw > phase.last && w.lastMillis == phase.last
    case Retry(c, last) =>
      var phase := CallerOf(w, c).phase;
      phase.Loaded? && phase.raw > phase.last && CallerOf(w, c).seen <= last <= w.lastMillis
    case Take(c) => CallerOf(w, c).phase.Held? && w.counter < TWO_62
  }

  function Next(w: World, move: Move): World
    requires Legal(w, move)
  {
    match move
    case Load(c, raw, last) => w.(callers := w.callers[c := Caller(Loaded(raw, last), last)])
    case Keep(c) =>
      var last := CallerOf(w, c).phase.last;
      w.(callers := w.callers[c := Caller(Held(last), last)])
    case Exchange(c) =>
      var raw := CallerOf(w, c).phase.raw;
      w.(lastMillis := raw, callers := w.callers[c := Caller(Held(raw), raw)])
    case Retry(c, last) =>
      w.(callers := w.callers[c := Caller(Loaded(CallerOf(w, c).phase.raw, last), last)])
    case Take(c) =>
      var millis := CallerOf(w, c).phase.millis;
      w.(counter := w.counter + 1, callers := w.callers[c := Caller(Idle, millis)],
         minted := w.minted + [Mint(c, millis, w.counter, Pack(millis, w.counter))])
  }

  ghost predicate CallerOk(w: World, c: nat) {
    var caller := CallerOf(w, c);
    && caller.seen <= w.lastMillis
    && match caller.phase
       case Idle => true
       case Loaded(raw, last) => raw < TWO_48 && last == caller.seen
       case Held(millis) => millis == caller.seen
  }

  /** Tickets rise along the list; each caller's milliseconds never fall. */
  ghost predicate MintsOk(minted: seq<Mint>) {
    && (forall i :: 0 <= i < |minted| ==>
          && minted[i].id == Pack(minted[i].millis, minted[i].ticket)
          && minted[i].ticket < TWO_62 && minted[i].millis < TWO_48)
    && (forall i, k :: 0 <= i < k < |minted| ==> minted[i].ticket < minted[k].ticket)
    && (forall i, k :: 0 <= i < k < |minted| && minted[i].caller == minted[k].caller ==>
          minted[i].millis <= minted[k].millis)
  }

  ghost predicate Inv(w: World) {
    && w.lastMillis < TWO_48
    && (forall c :: CallerOk(w, c))
    && MintsOk(w.minted)
    && (forall i :: 0 <= i < |w.minted| ==>
          && w.minted[i].ticket < w.counter
          && w.minted[i].millis <= CallerOf(w, w.minted[i].caller).seen)
  }

  /** Another caller's move leaves a caller as it was; the mark only rises. */
  lemma CallersStayOk(w: World, move: Move, c: nat)
    requires Legal(w, move) && CallerOk(w, c) && CallerOk(w, move.caller)
    requires w.lastMillis < TWO_48
    ensures w.lastMillis <= Next(w, move).lastMillis < TWO_48
    ensures CallerOk(Next(w, move), c)
    ensures CallerOf(w, c).seen <= CallerOf(Next(w, move), c).seen
  {
  }

  lemma MintedOneMore(minted: seq<Mint>, mint: Mint)
    requires MintsOk(minted) && mint.id == Pack(mint.millis, mint.ticket)
    requires mint.ticket < TWO_62 && mint.millis < TWO_48
    requires forall i :: 0 <= i < |minted| ==> minted[i].ticket < mint.ticket
    requires forall i :: 0 <= i < |minted| && minted[i].caller == mint.caller ==> minted[i].millis <= mint.millis
    ensures MintsOk(minted + [mint])
  {
  }

  lemma NextKeepsInv(w: World, move: Move)
    requires Inv(w) && Legal(w, move)
    ensures Inv(Next(w, move))
  {
    var w', c := Next(w, move), move.caller;
    assert CallerOk(w, c);
    forall d ensures CallerOk(w', d) && CallerOf(w, d).seen <= CallerOf(w', d).seen {
      assert CallerOk(w, d);
      CallersStayOk(w, move, d);
    }
    CallersStayOk(w, move, c);
    if move.Take? {
      MintedOneMore(w.minted, w'.minted[|w.minted|]);
    }
    forall i | 0 <= i < |w'.minted|
      ensures w'.minted[i].ticket < w'.counter && w'.minted[i].millis <= CallerOf(w', w'.minted[i].caller).seen
    {
      if i < |w.minted| {
        assert w'.minted[i] == w.minted[i];
      }
    }
  }

  predicate LegalRun(w: World, moves: seq<Move>)
    decreases |moves|, 0
  {
    moves == [] ||
    var n := |moves| - 1;
    LegalRun(w, moves[..n]) && Legal(Run(w, moves[..n]), moves[n])
  }

  function Run(w: World, moves: seq<Move>): World
    requires LegalRun(w, moves)
    decreases |moves|, 1
  {
    if moves == [] then w
    else
      var n := |moves| - 1;
      Next(Run(w, moves[..n]), moves[n])
  }

  lemma {:induction false} RunsKeepInv(moves: seq<Move>)
    requires LegalRun(START, moves)
    ensures Inv(Run(START, moves))
    decreases |moves|
  {
    if moves != [] {
      var n := |moves| - 1;
      RunsKeepInv(moves[..n]);
      NextKeepsInv(Run(START, moves[..n]), moves[n]);
    }
  }

  /** Under every interleaving no two ids are equal, and each caller's ids rise, whatever its clock does. */
  lemma IdsAreUniqueAndRise(moves: seq<Move>, i: nat, k: nat)
    requires LegalRun(START, moves) && i < k < |Run(START, moves).minted|
    ensures var minted := Run(START, moves).minted;
            && minted[i].id != minted[k].id
            && (minted[i].caller == minted[k].caller ==> Before(minted[i].id, minted[k].id))
  {
    RunsKeepInv(moves);
    var a, b := Run(START, moves).minted[i], Run(START, moves).minted[k];
    CollideIff(a.millis, a.ticket, b.millis, b.ticket);
    if a.caller == b.caller {
      PackOrders(a.millis, a.ticket, b.millis, b.ticket);
    }
  }

  /** Every id minted decodes to the millisecond its caller held, with version 7 and variant 0b10. */
  lemma IdsDecode(moves: seq<Move>, i: nat)
    requires LegalRun(START, moves) && i < |Run(START, moves).minted|
    ensures var mint := Run(START, moves).minted[i];
            && MillisOf(mint.id) == mint.millis && Version(mint.id) == 7 && Variant(mint.id) == 2
            && RandB(mint.id) == mint.ticket
  {
    RunsKeepInv(moves);
    var mint := Run(START, moves).minted[i];
    Layout(mint.millis, mint.ticket);
  }

  /** A caller holds no millisecond before its own clock reading. */
  lemma HeldIsNotBeforeTheClock(w: World, move: Move)
    requires Inv(w) && Legal(w, move) && (move.Keep? || move.Exchange?)
    ensures CallerOf(Next(w, move), move.caller).phase.Held?
    ensures CallerOf(w, move.caller).phase.raw <= CallerOf(Next(w, move), move.caller).phase.millis
  {
  }

  // ---- The generator in place ----

  class Generator {
    var counter: nat
    var lastMillis: nat

    constructor ()
      ensures counter == 1 && lastMillis == 0
    {
      counter, lastMillis := 1, 0;
    }

    /**
     The exchange loop. `rivals` are the marks others write between this caller's load and its
     exchanges; the caller leaves with the mark it raised or with a newer one.
     */
    method Hold(raw: nat, rivals: seq<nat>) returns (millis: nat)
      modifies this`lastMillis
      ensures raw <= millis <= lastMillis && old(lastMillis) <= millis
      ensures millis == raw || millis == old(lastMillis) || millis in rivals
      ensures lastMillis == old(lastMillis) || lastMillis == raw || lastMillis in rivals
    {
      var last, i := lastMillis, 0;
      while raw > last
        invariant 0 <= i <= |rivals| && old(lastMillis) <= last <= lastMillis
        invariant last == old(lastMillis) || last in rivals
        invariant lastMillis == old(lastMillis) || lastMillis in rivals
        decreases |rivals| - i, if lastMillis == last then 0 else 1
      {
        if i < |rivals| {
          if rivals[i] > lastMillis {
            lastMillis := rivals[i];
          }
          i := i + 1;
        }
        if lastMillis == last {
          lastMillis := raw;
          return raw;
        }
        last := lastMillis;
      }
      millis := last;
    }

    method NextId(raw: nat, rivals: seq<nat>) returns (id: Uuid, millis: nat)
      modifies this
      ensures id == Pack(millis, old(counter)) && counter == (old(counter) + 1) % TWO_64
      ensures raw <= millis <= lastMillis && old(lastMillis) <= millis
    {
      millis := Hold(raw, rivals);
      id := Pack(millis, counter);
      counter := (counter + 1) % TWO_64;
    }
  }
}
