/** Open leveraged positions and their unrealised profit and loss at the
    current price. The liquidation price is a field of the record read from
    the backend; nothing on the client computes it.
 */
module Positions {
  import opened Wrappers

  datatype Direction = Long | Short

  /** A leveraged position as the backend reports it. */
  datatype LeveragedPosition = LeveragedPosition(
    direction: Direction,
    leverage: real,
    entryPrice: real,
    amountICP: real,
    margin: real,
    openedAt: int,
    isOpen: bool,
    liquidationPrice: real)

  /** The position with its unrealised P&L added beside the original fields. */
  datatype PositionWithPnL = PositionWithPnL(position: LeveragedPosition, unrealizedPnL: real)

  /** The price move in the position's favour: up for a long, down for a
      short. */
  function PriceDifference(direction: Direction, entryPrice: real, currentPrice: real): real {
    match direction
    case Long => currentPrice - entryPrice
    case Short => entryPrice - currentPrice
  }

  /** Unrealised P&L: the favourable move times the amount times the
      leverage. */
  function UnrealizedPnL(p: LeveragedPosition, currentPrice: real): (pnl: real)
    ensures currentPrice == p.entryPrice ==> pnl == 0.0
    ensures p.direction == Long ==> pnl == (currentPrice - p.entryPrice) * p.amountICP * p.leverage
    ensures p.direction == Short ==> pnl == (p.entryPrice - currentPrice) * p.amountICP * p.leverage
  {
    PriceDifference(p.direction, p.entryPrice, currentPrice) * p.amountICP * p.leverage
  }

  /** A long and a short with the same fields have opposite P&L. */
  lemma LongShortOpposite(p: LeveragedPosition, currentPrice: real)
    ensures UnrealizedPnL(p.(direction := Long), currentPrice)
         == -UnrealizedPnL(p.(direction := Short), currentPrice)
  {
  }

  /** With a non-negative amount and leverage, a long gains as the price
      rises and a short loses. */
  lemma PnLMonotone(p: LeveragedPosition, lower: real, higher: real)
    requires p.amountICP >= 0.0 && p.leverage >= 0.0 && lower <= higher
    ensures p.direction == Long ==> UnrealizedPnL(p, lower) <= UnrealizedPnL(p, higher)
    ensures p.direction == Short ==> UnrealizedPnL(p, lower) >= UnrealizedPnL(p, higher)
  {
    var scale := p.amountICP * p.leverage;
    assert scale >= 0.0;
    assert (higher - lower) * scale >= 0.0;
    assert UnrealizedPnL(p, higher) - UnrealizedPnL(p, lower)
        == PriceDifference(p.direction, p.entryPrice, higher) * scale
         - PriceDifference(p.direction, p.entryPrice, lower) * scale;
  }

  /** The `positions.map(...)` inside the query: one entry per position, in
      order, each keeping every original field and adding its P&L. */
  function WithPnL(positions: seq<LeveragedPosition>, currentPrice: real): (r: seq<PositionWithPnL>)
    ensures |r| == |positions|
    ensures forall i | 0 <= i < |r| :: r[i].position == positions[i]
    ensures forall i | 0 <= i < |r| :: r[i].unrealizedPnL == UnrealizedPnL(positions[i], currentPrice)
  {
    seq(|positions|, i requires 0 <= i < |positions| =>
      PositionWithPnL(positions[i], UnrealizedPnL(positions[i], currentPrice)))
  }

  /** The query function: no actor gives no positions; otherwise the open
      positions the actor returns, valued at the current price. */
  function QueryPositions(actor: Option<seq<LeveragedPosition>>, currentPrice: real): (r: seq<PositionWithPnL>)
    ensures actor.None? ==> r == []
    ensures actor.Some? ==> |r| == |actor.value|
    ensures actor.Some? ==> r == WithPnL(actor.value, currentPrice)
  {
    match actor
    case None => []
    case Some(positions) => WithPnL(positions, currentPrice)
  }

  /** The query runs only with an actor that is not still loading and a
      current price above 0; an unavailable price defaults to 0 and so
      keeps it disabled. */
  function PositionsEnabled(hasActor: bool, actorFetching: bool, currentPrice: Option<real>): (enabled: bool)
    ensures enabled ==> currentPrice.Some? && currentPrice.value > 0.0
    ensures enabled <==> hasActor && !actorFetching && currentPrice.GetOr(0.0) > 0.0
  {
    hasActor && !actorFetching && currentPrice.GetOr(0.0) > 0.0
  }

  // ---------------------------------------------------------------------
  // The direction test as written

  /** How a position's direction can arrive at run time: the tagged object
      `{ __kind__: 'long' }` the position type declares, or the plain string
      of the `PositionType` enum. */
  datatype WireDirection = KindTag(kind: string) | EnumString(text: string)

  /** `position.positionType === PositionType.long_`: strict equality with
      the string `'long'`, which an object never satisfies. */
  predicate IsLongAsWritten(w: WireDirection) {
    w == EnumString("long")
  }

  /** The P&L the query computes for a position whose direction arrives as
      `w`. */
  function UnrealizedPnLAsWritten(w: WireDirection, p: LeveragedPosition, currentPrice: real): (pnl: real)
    ensures IsLongAsWritten(w) ==> pnl == (currentPrice - p.entryPrice) * p.amountICP * p.leverage
    ensures !IsLongAsWritten(w) ==> pnl == (p.entryPrice - currentPrice) * p.amountICP * p.leverage
  {
    UnrealizedPnL(p.(direction := if IsLongAsWritten(w) then Long else Short), currentPrice)
  }

  /** The direction the tag means, under either encoding. */
  function DecodeDirection(w: WireDirection): (d: Direction)
    ensures d == Long <==> w == KindTag("long") || w == EnumString("long")
  {
    if w == KindTag("long") || w == EnumString("long") then Long else Short
  }

  /** The P&L computed from the decoded direction: for every position and
      price, long and short are told apart under both encodings. */
  function UnrealizedPnLDecoded(w: WireDirection, p: LeveragedPosition, currentPrice: real): (pnl: real)
    ensures w == KindTag("long") ==> pnl == (currentPrice - p.entryPrice) * p.amountICP * p.leverage
    ensures w == KindTag("short") ==> pnl == (p.entryPrice - currentPrice) * p.amountICP * p.leverage
  {
    UnrealizedPnL(p.(direction := DecodeDirection(w)), currentPrice)
  }

  /** A position as it arrives at run time: its direction tag in wire form
      and the remaining fields (whose own `direction` the tag overrides). */
  datatype WirePosition = WirePosition(tag: WireDirection, fields: LeveragedPosition)

  /** The position the record stands for, with the direction its tag means. */
  function DecodePosition(w: WirePosition): (p: LeveragedPosition)
    ensures p.direction == DecodeDirection(w.tag)
    ensures p.(direction := w.fields.direction) == w.fields
  {
    w.fields.(direction := DecodeDirection(w.tag))
  }

  /** The `positions.map(...)` exactly as written: every field of the record
      is kept, with its direction read as the position it stands for, and
      the P&L is priced by the strict-equality test on the raw tag. */
  function WithPnLAsWritten(positions: seq<WirePosition>, currentPrice: real): (r: seq<PositionWithPnL>)
    ensures |r| == |positions|
    ensures forall i | 0 <= i < |r| :: r[i].position == DecodePosition(positions[i])
    ensures forall i | 0 <= i < |r| ::
      r[i].unrealizedPnL == UnrealizedPnLAsWritten(positions[i].tag, positions[i].fields, currentPrice)
  {
    seq(|positions|, i requires 0 <= i < |positions| =>
      PositionWithPnL(DecodePosition(positions[i]),
        UnrealizedPnLAsWritten(positions[i].tag, positions[i].fields, currentPrice)))
  }

  /** The query function as written: no actor gives no positions; otherwise
      the records the actor returns, priced by the raw tag. */
  function QueryPositionsAsWritten(actor: Option<seq<WirePosition>>, currentPrice: real): (r: seq<PositionWithPnL>)
    ensures actor.None? ==> r == []
    ensures actor.Some? ==> r == WithPnLAsWritten(actor.value, currentPrice)
  {
    match actor
    case None => []
    case Some(positions) => WithPnLAsWritten(positions, currentPrice)
  }

  /** Every record decoded, in order. */
  function DecodeAll(positions: seq<WirePosition>): (r: seq<LeveragedPosition>)
    ensures |r| == |positions|
    ensures forall i | 0 <= i < |r| :: r[i] == DecodePosition(positions[i])
  {
    seq(|positions|, i requires 0 <= i < |positions| => DecodePosition(positions[i]))
  }

  /** The actor's reply, decoded. */
  function DecodeReply(actor: Option<seq<WirePosition>>): (r: Option<seq<LeveragedPosition>>)
    ensures r.None? <==> actor.None?
    ensures actor.Some? ==> r.value == DecodeAll(actor.value)
  {
    match actor
    case None => None
    case Some(positions) => Some(DecodeAll(positions))
  }

  /** When every direction arrives as the enum string, the query as written
      is the query on the decoded positions. */
  lemma AsWrittenAgreesOnEnumStrings(actor: Option<seq<WirePosition>>, currentPrice: real)
    requires actor.Some? ==> forall i | 0 <= i < |actor.value| :: actor.value[i].tag.EnumString?
    ensures QueryPositionsAsWritten(actor, currentPrice) == QueryPositions(DecodeReply(actor), currentPrice)
  {
    if actor.Some? {
      var written := QueryPositionsAsWritten(actor, currentPrice);
      var decoded := QueryPositions(DecodeReply(actor), currentPrice);
      assert |written| == |decoded|;
      forall i | 0 <= i < |written|
        ensures written[i] == decoded[i]
      {
        var w := actor.value[i];
        assert IsLongAsWritten(w.tag) <==> DecodeDirection(w.tag) == Long;
      }
    }
  }

  /** A reply carrying one long position with the object tag is priced as a
      short by the query as written and as a long on the decoded reply. */
  lemma QueryLongTagDiffers()
    ensures var w := WirePosition(KindTag("long"), LeveragedPosition(Long, 5.0, 100.0, 10.0, 200.0, 0, true, 80.0));
      && QueryPositionsAsWritten(Some([w]), 110.0)[0].unrealizedPnL == -500.0
      && QueryPositions(DecodeReply(Some([w])), 110.0)[0].unrealizedPnL == 500.0
  {
    var w := WirePosition(KindTag("long"), LeveragedPosition(Long, 5.0, 100.0, 10.0, 200.0, 0, true, 80.0));
    assert DecodePosition(w).direction == Long;
  }

  /** A long position whose direction carries the declared object tag is
      valued as a short: entry 100, price 110, 10 ICP at 5x gives -500
      instead of +500. */
  lemma LongTagValuedAsShort()
    ensures var p := LeveragedPosition(Long, 5.0, 100.0, 10.0, 200.0, 0, true, 80.0);
      && UnrealizedPnLAsWritten(KindTag("long"), p, 110.0) == -500.0
      && UnrealizedPnLDecoded(KindTag("long"), p, 110.0) == 500.0
  {
  }

  /** In general the as-written test loses the sign of every long position
      that has moved, whenever it carries the object tag. */
  lemma LongTagSignLost(p: LeveragedPosition, currentPrice: real)
    requires currentPrice != p.entryPrice && p.amountICP * p.leverage != 0.0
    ensures UnrealizedPnLAsWritten(KindTag("long"), p, currentPrice)
         == -UnrealizedPnLDecoded(KindTag("long"), p, currentPrice)
    ensures UnrealizedPnLAsWritten(KindTag("long"), p, currentPrice)
         != UnrealizedPnLDecoded(KindTag("long"), p, currentPrice)
  {
    var d := currentPrice - p.entryPrice;
    var s := p.amountICP * p.leverage;
    assert UnrealizedPnLDecoded(KindTag("long"), p, currentPrice) == d * s;
    assert UnrealizedPnLAsWritten(KindTag("long"), p, currentPrice) == -d * s;
    assert d * s != 0.0;
  }
}
