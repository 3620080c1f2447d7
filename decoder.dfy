/** `decodeManufacturerData`: the 27-byte manufacturer-specific data block of company
    identifier 76 (0x004C) read as battery and connection status of the charging case
    and the two earbuds. The Kotlin method logs what it finds; the model returns it. */
module BatteryDecoder {
  import opened Wrappers
  import opened Bytes
  import opened Hex

  /** The company identifier whose manufacturer-specific data is decoded. */
  const ManufacturerId: int := 76

  /** The only accepted length of that data block. */
  const PayloadLength: nat := 27

  /** The parsed advertisement record: manufacturer-specific data blocks keyed by
      company identifier. */
  datatype ScanRecord = ScanRecord(manufacturerSpecificData: map<int, seq<Int8>>)

  /** A scan result as delivered to the callback; its record may be absent. */
  datatype ScanResult = ScanResult(scanRecord: Option<ScanRecord>)

  /** One component's reading: whether it is connected, and its charge in percent
      (`null` in the Kotlin code where the status nibble carries no percentage). */
  datatype Component = Component(connected: bool, charge: Option<Int8>)

  datatype BatteryReport = BatteryReport(
    flipped: bool,
    chargingCase: Component,
    left: Component,
    right: Component)

  /** The two early returns of the Kotlin method. */
  datatype DecodeError =
    | NoManufacturerData
    | UnexpectedLength

  /** `scanResult.scanRecord?.getManufacturerSpecificData(76)` */
  function ManufacturerData(scanResult: ScanResult): (data: Option<seq<Int8>>)
    ensures data.Some? <==>
              scanResult.scanRecord.Some? && ManufacturerId in scanResult.scanRecord.value.manufacturerSpecificData
  {
    match scanResult.scanRecord
    case None => None
    case Some(record) =>
      if ManufacturerId in record.manufacturerSpecificData
      then Some(record.manufacturerSpecificData[ManufacturerId])
      else None
  }

  /** The polarity test `nibble and 0x02 == 0`. */
  function FlipBitClear(n: Nibble): (clear: bool)
    ensures clear <==> n % 4 < 2
  {
    (n as bv8) & 0x02 == 0
  }

  /** The charge expression of the Kotlin code, `(if (status == 10) 100 else if
      (status < 10) formulaStatus * 10 + 5 else null)?.toByte()`. The status that
      selects the branch and the status in the percentage formula are separate
      parameters because the right earbud's expression mixes the two. */
  function ChargeFor(status: Nibble, formulaStatus: Nibble): (c: Option<Int8>)
    ensures c.Some? <==> status <= 10
    ensures status == 10 ==> c == Some(100)
    ensures status < 10 ==> (c.value as int) % 256 == (10 * formulaStatus + 5) % 256
    ensures status < 10 && formulaStatus < 13 ==> c.value as int == 10 * formulaStatus + 5
  {
    if status == 10 then Some(ToByte(100))
    else if status < 10 then Some(ToByte(formulaStatus * 10 + 5))
    else None
  }

  /** A component computed from its own status nibble alone, as the case and the left
      earbud are. */
  function OwnComponent(status: Nibble): Component {
    Component(status != 15, ChargeFor(status, status))
  }

  /** The status nibble at a position of the hexadecimal rendering. */
  function StatusAt(hex: string, pos: nat): (n: Nibble)
    requires pos < |hex| && IsUpperHex(hex)
    ensures HexDigit(n) == hex[pos]
  {
    DigitValue(hex[pos]).value
  }

  /** Lines 193-202 applied to the rendering of a 27-byte block. */
  function ReportFromHex(hex: string): (r: BatteryReport)
    requires |hex| == 2 * PayloadLength && IsUpperHex(hex)
    ensures r.flipped <==> hex[10] in "014589CD"
    ensures r.chargingCase.connected <==> hex[15] != 'F'
    ensures r.left.connected <==> hex[if r.flipped then 12 else 13] != 'F'
    ensures r.right.connected <==> hex[if r.flipped then 13 else 12] != 'F'
    ensures r.chargingCase.charge.None? <==> hex[15] in "BCDEF"
    ensures r.left.charge.None? <==> hex[if r.flipped then 12 else 13] in "BCDEF"
    ensures r.right.charge.None? <==> hex[if r.flipped then 13 else 12] in "BCDEF"
  {
    var isFlipped := FlipBitClear(StatusAt(hex, 10));
    var leftStatus := StatusAt(hex, if isFlipped then 12 else 13);
    var rightStatus := StatusAt(hex, if isFlipped then 13 else 12);
    var caseStatus := StatusAt(hex, 15);
    BatteryReport(
      isFlipped,
      Component(caseStatus != 15, ChargeFor(caseStatus, caseStatus)),
      Component(leftStatus != 15, ChargeFor(leftStatus, leftStatus)),
      Component(rightStatus != 15, ChargeFor(rightStatus, leftStatus)))
  }

  /** What `decodeManufacturerData` reports for a scan result. */
  function Decode(scanResult: ScanResult): (r: Result<BatteryReport, DecodeError>)
    ensures r.Failure? <==>
              ManufacturerData(scanResult).None? || |ManufacturerData(scanResult).value| != PayloadLength
    ensures r == Failure(NoManufacturerData) <==> ManufacturerData(scanResult).None?
    ensures r == Failure(UnexpectedLength) <==>
              ManufacturerData(scanResult).Some? && |ManufacturerData(scanResult).value| != PayloadLength
  {
    match ManufacturerData(scanResult)
    case None => Failure(NoManufacturerData)
    case Some(data) =>
      if |data| != PayloadLength then Failure(UnexpectedLength)
      else
        HexStringShape(data);
        Success(ReportFromHex(HexString(data)))
  }

  /** The Kotlin method: extraction, the two length checks, the `StringBuilder` loop
      and the nibble reads. */
  method DecodeManufacturerData(scanResult: ScanResult) returns (r: Result<BatteryReport, DecodeError>)
    ensures r == Decode(scanResult)
  {
    var data := ManufacturerData(scanResult);
    if data.None? {
      return Failure(NoManufacturerData);
    }
    if |data.value| != PayloadLength {
      return Failure(UnexpectedLength);
    }
    var dataHex := FormatHex(data.value);
    r := Success(ReportFromHex(dataHex));
  }

  // ---------------------------------------------------------------------------
  // Properties of the decoder

  /** The flip test holds exactly for the hexadecimal digits 0, 1, 4, 5, 8, 9, C and D. */
  lemma FlipBitClearDigits(n: Nibble)
    ensures FlipBitClear(n) <==> n in {0, 1, 4, 5, 8, 9, 12, 13}
    ensures FlipBitClear(n) <==> HexDigit(n) in "014589CD"
  {
  }

  /** The status mapping: 10 is a full charge, 0..9 are 5..95 percent in steps of ten,
      11..14 are connected with no percentage, and 15 is disconnected. Each percentage
      fits a signed byte, so `toByte()` keeps it. */
  lemma StatusMapping(status: Nibble)
    ensures status == 10 ==> OwnComponent(status) == Component(true, Some(100))
    ensures status < 10 ==> OwnComponent(status) == Component(true, Some((10 * status + 5) as Int8))
    ensures status < 10 ==> 5 <= 10 * status + 5 <= 95
    ensures 11 <= status <= 14 ==> OwnComponent(status) == Component(true, None)
    ensures status == 15 ==> OwnComponent(status) == Component(false, None)
    ensures OwnComponent(status).charge.Some? ==> 5 <= OwnComponent(status).charge.value as int <= 100
    ensures OwnComponent(status).connected <==> status != 15
  {
  }

  /** The decoded report in terms of the payload's bytes: nibble 10 is the high nibble of
      byte 5, nibbles 12 and 13 are the two nibbles of byte 6, nibble 15 is the low nibble
      of byte 7. */
  lemma {:induction false} DecodeReadsNibbles(scanResult: ScanResult, data: seq<Int8>)
    requires ManufacturerData(scanResult) == Some(data) && |data| == PayloadLength
    ensures Decode(scanResult).Success?
    ensures var r := Decode(scanResult).value;
            var flipped := FlipBitClear(HighNibble(data[5]));
            var leftStatus := if flipped then HighNibble(data[6]) else LowNibble(data[6]);
            var rightStatus := if flipped then LowNibble(data[6]) else HighNibble(data[6]);
            && r.flipped == flipped
            && r.chargingCase == OwnComponent(LowNibble(data[7]))
            && r.left == OwnComponent(leftStatus)
            && r.right == Component(rightStatus != 15, ChargeFor(rightStatus, leftStatus))
  {
    var hex := HexString(data);
    HexStringShape(data);
    HexStringNibbleAt(data, 5);
    HexStringNibbleAt(data, 6);
    HexStringNibbleAt(data, 7);
    assert StatusAt(hex, 10) == HighNibble(data[5]);
    assert StatusAt(hex, 12) == HighNibble(data[6]);
    assert StatusAt(hex, 13) == LowNibble(data[6]);
    assert StatusAt(hex, 15) == LowNibble(data[7]);
  }

  /** The right earbud's charge as the Kotlin code computes it differs from a charge
      computed from the right status nibble alone exactly when the right status is
      below 10 and the left status is a different value. */
  lemma RightChargeAsWritten(rightStatus: Nibble, leftStatus: Nibble)
    ensures ChargeFor(rightStatus, leftStatus) != ChargeFor(rightStatus, rightStatus) <==>
              rightStatus < 10 && leftStatus != rightStatus
    ensures rightStatus < 10 ==> ChargeFor(rightStatus, leftStatus) == Some(ToByte(10 * leftStatus + 5))
  {
  }

  /** When the right status is below 10 and the left one is 13, 14 or 15, the right
      charge is 135, 145 or 155 narrowed by `toByte()`: a negative number. */
  lemma RightChargeWraps(rightStatus: Nibble, leftStatus: Nibble)
    requires rightStatus < 10 && leftStatus >= 13
    ensures ChargeFor(rightStatus, leftStatus) == Some((10 * leftStatus + 5 - 256) as Int8)
    ensures ChargeFor(rightStatus, leftStatus).value < 0
  {
    assert 10 * leftStatus + 5 >= 128;
  }

  /** The beacon `07 19 00 00 00 13 90 0A` followed by nineteen zero bytes. */
  function ExamplePayload(): (data: seq<Int8>)
    ensures |data| == PayloadLength
  {
    [7, 25, 0, 0, 0, 0x13, -112, 0x0A] + seq(19, _ => 0)
  }

  /** It decodes to flipped, case 100, left 95 and right 95 (not 5: the right charge
      takes the left status nibble 9), all connected. */
  lemma ExampleDecodes(scanResult: ScanResult)
    requires ManufacturerData(scanResult) == Some(ExamplePayload())
    ensures Decode(scanResult) == Success(BatteryReport(
              true, Component(true, Some(100)), Component(true, Some(95)), Component(true, Some(95))))
  {
    var data := ExamplePayload();
    DecodeReadsNibbles(scanResult, data);
    assert HighNibble(data[5]) == 1;
    assert HighNibble(data[6]) == 9 && LowNibble(data[6]) == 0;
    assert LowNibble(data[7]) == 10;
  }
}
