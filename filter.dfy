/** `scanFilters`: the single match criterion handed to the radio stack, selecting
    manufacturer-specific data of company 76 whose first two bytes are 07 19. */
module AdvertisementFilter {
  import opened Wrappers
  import opened Bytes
  import opened BatteryDecoder

  /** What `ScanFilter.Builder().setManufacturerData(id, data, mask).build()` holds. */
  datatype ScanFilter = ScanFilter(manufacturerId: int, manufacturerData: seq<Int8>, manufacturerDataMask: seq<Int8>)

  /** The exact list `scanFilters` returns: one filter for company 76 with a 27-byte
      template 07 19 00 .. 00 and a 27-byte mask FF FF 00 .. 00 (0xFF is -1 as a byte). */
  ghost predicate IsBeaconFilterList(filters: seq<ScanFilter>) {
    && |filters| == 1
    && filters[0].manufacturerId == 76
    && |filters[0].manufacturerData| == 27
    && |filters[0].manufacturerDataMask| == 27
    && filters[0].manufacturerData[0] == 7 && filters[0].manufacturerData[1] == 25
    && filters[0].manufacturerDataMask[0] == -1 && filters[0].manufacturerDataMask[1] == -1
    && (forall i :: 2 <= i < 27 ==> filters[0].manufacturerData[i] == 0)
    && (forall i :: 2 <= i < 27 ==> filters[0].manufacturerDataMask[i] == 0)
  }

  /** Two fresh zero-filled 27-byte arrays, four entries set, one filter built from them. */
  method ScanFilters() returns (filters: seq<ScanFilter>)
    ensures IsBeaconFilterList(filters)
  {
    var manufacturerData := new Int8[27](_ => 0);
    var manufacturerDataMask := new Int8[27](_ => 0);
    manufacturerData[0] := 7;
    manufacturerData[1] := 25;
    manufacturerDataMask[0] := -1;
    manufacturerDataMask[1] := -1;
    filters := [ScanFilter(76, manufacturerData[..], manufacturerDataMask[..])];
  }

  /** Bitwise `and` of two bytes. */
  function AndBits(a: Int8, b: Int8): bv8 {
    (Unsigned(a) as bv8) & (Unsigned(b) as bv8)
  }

  /** How the radio stack compares a record against a manufacturer filter: the record
      carries data for the filter's company, at least as long as the template, and
      every byte agrees with the template wherever the mask has bits set. */
  ghost predicate Matches(filter: ScanFilter, record: ScanRecord) {
    && |filter.manufacturerDataMask| == |filter.manufacturerData|
    && filter.manufacturerId in record.manufacturerSpecificData
    && var parsed := record.manufacturerSpecificData[filter.manufacturerId];
       && |parsed| >= |filter.manufacturerData|
       && forall i :: 0 <= i < |filter.manufacturerData| ==>
            AndBits(filter.manufacturerDataMask[i], parsed[i]) == AndBits(filter.manufacturerDataMask[i], filter.manufacturerData[i])
  }

  /** The beacon filter lets through exactly the records whose company-76 data is at
      least 27 bytes long and starts 07 19; nothing else about the data is looked at. */
  lemma BeaconFilterSelects(filters: seq<ScanFilter>, record: ScanRecord)
    requires IsBeaconFilterList(filters)
    ensures Matches(filters[0], record) <==>
              && 76 in record.manufacturerSpecificData
              && |record.manufacturerSpecificData[76]| >= 27
              && record.manufacturerSpecificData[76][0] == 7
              && record.manufacturerSpecificData[76][1] == 25
  {
  }

  /** Every record the filter passes has company-76 data; it is decoded unless it is
      longer than 27 bytes. */
  lemma FilteredRecordsReachDecoder(filters: seq<ScanFilter>, record: ScanRecord)
    requires IsBeaconFilterList(filters) && Matches(filters[0], record)
    ensures Decode(ScanResult(Some(record))).Success? <==> |record.manufacturerSpecificData[76]| == 27
  {
  }
}
