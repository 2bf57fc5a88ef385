/**
 * The configuration words the monitor writes into a CHA box's counter
 * control registers.  Counter 0 counts TOR occupancy and counter 1 TOR
 * inserts of demand data reads that miss; both are scoped to local memory
 * on even boxes and to remote memory on odd boxes.  Counter 2 counts the
 * box's clock ticks.
 */
module ChaControl {

  /** TOR occupancy, demand data read, miss, local memory (even boxes). */
  const OccupancyLocal: bv64 := 0x00c8_1686_0040_0136
  /** TOR occupancy, demand data read, miss, remote memory (odd boxes). */
  const OccupancyRemote: bv64 := 0x00c8_1706_0040_0136
  /** TOR inserts, demand data read, miss, local memory (even boxes). */
  const InsertLocal: bv64 := 0x00c8_1686_0040_0135
  /** TOR inserts, demand data read, miss, remote memory (odd boxes). */
  const InsertRemote: bv64 := 0x00c8_1706_0040_0135
  /** Clock-tick event for counter 2. */
  const ClockTicks: bv64 := 0x40_0000
  /** Filter 0 value meaning "no filtering". */
  const NoFilter: bv64 := 0

  /** Bit 39 of a TOR control word: requests homed in local memory. */
  const LocalBit: bv64 := 0x80_0000_0000
  /** Bit 40 of a TOR control word: requests homed in remote memory. */
  const RemoteBit: bv64 := 0x100_0000_0000
  /** The two scope bits together (bits 39 and 40). */
  const ScopeMask: bv64 := 0x0000_0180_0000_0000
  /** The event-select field, bits 0..7. */
  const EventMask: bv64 := 0xFF
  /** Event-select codes of the two TOR events. */
  const TorOccupancyEvent: bv64 := 0x36
  const TorInsertsEvent: bv64 := 0x35

  /** Occupancy word for box `cha`, chosen by the box's parity. */
  function OccupancyWord(cha: int): bv64 {
    if cha % 2 == 0 then OccupancyLocal else OccupancyRemote
  }

  /** Insert word for box `cha`, chosen by the box's parity. */
  function InsertWord(cha: int): bv64 {
    if cha % 2 == 0 then InsertLocal else InsertRemote
  }

  /** The event-select field of a control word. */
  function EventSelect(w: bv64): bv64 { w & EventMask }

  /**
   * Even boxes select local scope and odd boxes remote scope, exactly one
   * of the two, for both the occupancy and the insert word.
   */
  lemma ScopeFollowsParity(cha: int)
    ensures (OccupancyWord(cha) & LocalBit != 0) <==> cha % 2 == 0
    ensures (OccupancyWord(cha) & RemoteBit != 0) <==> cha % 2 == 1
    ensures (InsertWord(cha) & LocalBit != 0) <==> cha % 2 == 0
    ensures (InsertWord(cha) & RemoteBit != 0) <==> cha % 2 == 1
  {
  }

  /**
   * The words of neighbouring boxes for the same counter differ in the two
   * scope bits and nowhere else.
   */
  lemma NeighbourBoxesDifferInScopeOnly(cha: int)
    ensures OccupancyWord(cha) ^ OccupancyWord(cha + 1) == ScopeMask
    ensures InsertWord(cha) ^ InsertWord(cha + 1) == ScopeMask
  {
  }

  /**
   * In one box, the occupancy and insert words differ only in the
   * event-select field, which names the two TOR events.
   */
  lemma OccupancyAndInsertDifferInEventOnly(cha: int)
    ensures OccupancyWord(cha) ^ InsertWord(cha) == 0x3
    ensures OccupancyWord(cha) & !EventMask == InsertWord(cha) & !EventMask
    ensures EventSelect(OccupancyWord(cha)) == TorOccupancyEvent
    ensures EventSelect(InsertWord(cha)) == TorInsertsEvent
  {
  }
}
