/** Messages and states exchanged by the parts of the bot (crates/shared/src/packet.rs). */
module Packets {

  datatype Side = Long | Short

  type SymbolId = nat

  /** The decision-relevant fields of `MarketStatePacket`. */
  datatype Packet = Packet(tsNs: nat, seqNum: nat, symbolId: SymbolId, entryValid: int, directionBias: int,
                           regime: int, zScore: real, velocity: real, sigma: real, dExp: real, dMin: real,
                           ema50: real, ema200: real, atr: real, refPrice: real, bybitMidRef: real,
                           lagBps: real, lagResidualBps: real, impulseBps: real)
}
