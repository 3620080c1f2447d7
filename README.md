# AirPodsBattery: beacon decoding and scan lifecycle

A Dafny model of the logic inside the Android activity `MainActivity` of AirPodsBattery.
The app scans for Bluetooth Low Energy advertisements from an earbud charging case. It reads
the battery and connection status of the case and of both earbuds out of a 27-byte block.
That block is the Manufacturer Specific Data (Bluetooth Core Specification Supplement,
Part A, section 1.4) of company identifier 76 (0x004C).

The model has six modules:

- `Wrappers`: `Option` and `Result`.
- `Bytes`: Kotlin's signed `Byte` (`Int8`), its unsigned reading as Java's `%X` prints
  it, `Int.toByte()`, and nibbles.
- `Hex`: the upper-case `%02X` rendering built by a `StringBuilder` loop (`FormatHex`),
  its specification `HexString`, and Kotlin's `toInt(16)` on one character.
- `BatteryDecoder`: `decodeManufacturerData`. It returns a `BatteryReport` (`flipped`,
  plus `connected` and `charge` for the case, the left and the right earbud) or a
  `DecodeError`. The Kotlin method only logs these.
- `AdvertisementFilter`: `scanFilters`, built from two fresh 27-byte arrays. It also
  defines how a manufacturer filter with a mask selects records, so that the filter's
  bytes can be read as the set of payloads it admits.
- `Scanning`: class `MainActivity`, with `start`, the two checks, `startScan`,
  `onDestroy` and the scan callback. The Bluetooth adapter and the permission system are
  fields that act as inputs (`enabled` and one grant per required permission). The scanner
  is a `registered` flag plus a ghost record of the `stopScan`/`startScan` calls made on
  it. A second ghost record lists every scan result handed to the decoder.

Points where the code's behaviour is easy to misread:

- The flip test `nibble and 0x02 == 0` holds for the digits 0, 1, 4, 5, 8, 9, C and D.
- The right earbud's charge takes the left status nibble in its below-10 branch
  (`MainActivity.kt:198`). The model keeps this. So the payload `07 19 00 00 00 13 90 0A`
  followed by nineteen zero bytes decodes to right = 95, although its right status nibble is 0 (`ExampleDecodes`).
  `RightChargeAsWritten` states exactly when the result differs from a per-component
  charge. `RightChargeWraps` shows a consequence of the same line. When the left status
  is 13, 14 or 15 and the right one is below 10, the right charge is 135, 145 or 155.
  `toByte()` then turns it into a negative number. For the case and the left earbud every
  charge lies in 5..100, so `toByte()` keeps it unchanged.
- `start` checks Bluetooth first and returns before the permissions are looked at. Only
  within `checkPermissions` are all four permissions visited without stopping early.
- `stopScan` is issued on every `start` and every `onDestroy`, even when nothing is
  registered. No separate `Idle`/`Scanning`/`Failed` state is kept. The scanner's
  registration is the only state.

## Model

| member | source | states |
|---|---|---|
| `Bytes.Unsigned` | app/src/main/java/com/github/airpodsbattery/MainActivity.kt:190 | the byte value `%02X` prints is in 0..255 and has the same low eight bits as the signed byte |
| `Bytes.ToByte` | app/src/main/java/com/github/airpodsbattery/MainActivity.kt:197-199 | `toByte()` keeps the low eight bits, and leaves any value in -128..127 unchanged |
| `Bytes.HighNibble` | app/src/main/java/com/github/airpodsbattery/MainActivity.kt:190 | the high nibble n of a byte satisfies 16n <= unsigned value < 16n+16 |
| `Bytes.LowNibble` | app/src/main/java/com/github/airpodsbattery/MainActivity.kt:190 | the unsigned value is 16 times the high nibble plus the low nibble |
| `Hex.HexDigit` | app/src/main/java/com/github/airpodsbattery/MainActivity.kt:190 | every printed digit is an upper-case hexadecimal character, and `toInt(16)` reads it back as the nibble it came from |
| `Hex.DigitValue` | app/src/main/java/com/github/airpodsbattery/MainActivity.kt:193-196 | `toInt(16)` of one character succeeds exactly for 0-9, A-F and a-f |
| `Hex.Format02X` | app/src/main/java/com/github/airpodsbattery/MainActivity.kt:190 | each byte renders as exactly two upper-case hexadecimal characters |
| `Hex.HexString` | app/src/main/java/com/github/airpodsbattery/MainActivity.kt:189-191 | the builder's content after all bytes are appended has two characters per byte; see `HexStringAt` for the characters |
| `Hex.HexStringShape` | app/src/main/java/com/github/airpodsbattery/MainActivity.kt:189-191 | the rendering has two upper-case hexadecimal characters per byte, 54 for a 27-byte block |
| `Hex.HexStringAt` | app/src/main/java/com/github/airpodsbattery/MainActivity.kt:189-191 | character 2k is the high nibble of byte k and character 2k+1 its low nibble |
| `Hex.HexStringNibbleAt` | app/src/main/java/com/github/airpodsbattery/MainActivity.kt:193-196 | reading character 2k or 2k+1 with `toInt(16)` gives back the high or low nibble of byte k |
| `Hex.FormatHex` | app/src/main/java/com/github/airpodsbattery/MainActivity.kt:189-191 | the `StringBuilder` loop produces the rendering: its length, upper-case digits, and the nibble at every position |
| `BatteryDecoder.ManufacturerData` | app/src/main/java/com/github/airpodsbattery/MainActivity.kt:173 | there is data exactly when the result has a scan record and that record holds data for company 76 |
| `BatteryDecoder.FlipBitClear` | app/src/main/java/com/github/airpodsbattery/MainActivity.kt:193 | `nibble and 0x02 == 0` holds exactly when the nibble is 0 or 1 modulo 4 |
| `BatteryDecoder.ChargeFor` | app/src/main/java/com/github/airpodsbattery/MainActivity.kt:197-199 | a charge exists exactly for status 0..10; status 10 gives 100; below 10 the charge is `10·formulaStatus+5` taken modulo 256, and equals it unless the formula status is 13 or more |
| `BatteryDecoder.StatusAt` | app/src/main/java/com/github/airpodsbattery/MainActivity.kt:193-196 | the nibble read at a position is the one whose digit is printed there |
| `BatteryDecoder.ReportFromHex` | app/src/main/java/com/github/airpodsbattery/MainActivity.kt:193-202 | `flipped` holds exactly when character 10 is one of 0, 1, 4, 5, 8, 9, C, D; each component is disconnected exactly when its character (15 for the case, 12 or 13 for the earbuds by `flipped`) is F, and has no charge exactly when that character is B..F |
| `BatteryDecoder.Decode` | app/src/main/java/com/github/airpodsbattery/MainActivity.kt:171-181 | no report is produced exactly when the company-76 data is absent or is not 27 bytes long; the error says which of the two cases applies |
| `BatteryDecoder.DecodeManufacturerData` | app/src/main/java/com/github/airpodsbattery/MainActivity.kt:171-202 | the method, with its hex-building loop, returns exactly what the decoder specification gives |
| `BatteryDecoder.FlipBitClearDigits` | app/src/main/java/com/github/airpodsbattery/MainActivity.kt:193 | `flipped` holds exactly for the nibbles 0, 1, 4, 5, 8, 9, C and D |
| `BatteryDecoder.StatusMapping` | app/src/main/java/com/github/airpodsbattery/MainActivity.kt:197-202 | status 10 gives (connected, 100); s < 10 gives (connected, 10s+5), within 5..95; 11..14 give (connected, no charge); 15 gives (disconnected, no charge) |
| `BatteryDecoder.DecodeReadsNibbles` | app/src/main/java/com/github/airpodsbattery/MainActivity.kt:193-202 | for 27-byte data: `flipped` is the test on the high nibble of byte 5; left and right are the two nibbles of byte 6, swapped when not flipped; the case is the low nibble of byte 7 |
| `BatteryDecoder.RightChargeAsWritten` | app/src/main/java/com/github/airpodsbattery/MainActivity.kt:198 | the right charge below status 10 is `toByte(10·left+5)`; it differs from the charge of the right status alone exactly when the right status is below 10 and the left status differs |
| `BatteryDecoder.RightChargeWraps` | app/src/main/java/com/github/airpodsbattery/MainActivity.kt:198 | with the right status below 10 and the left status 13..15, the right charge is negative |
| `BatteryDecoder.ExampleDecodes` | app/src/main/java/com/github/airpodsbattery/MainActivity.kt:189-202 | `07 19 00 00 00 13 90 0A 00…` decodes to flipped, case 100, left 95, right 95, all connected |
| `AdvertisementFilter.ScanFilters` | app/src/main/java/com/github/airpodsbattery/MainActivity.kt:35-45 | one filter for company 76: template 07 19 then 25 zero bytes, mask FF FF (-1) then 25 zero bytes, both 27 bytes long |
| `AdvertisementFilter.BeaconFilterSelects` | app/src/main/java/com/github/airpodsbattery/MainActivity.kt:36-43 | that filter admits a record exactly when its company-76 data has at least 27 bytes and starts 07 19 |
| `AdvertisementFilter.FilteredRecordsReachDecoder` | app/src/main/java/com/github/airpodsbattery/MainActivity.kt:35-45 | a record the filter admits is decoded exactly when its company-76 data is exactly 27 bytes long |
| `Scanning.AtMostOneRegistration` | app/src/main/java/com/github/airpodsbattery/MainActivity.kt:98-107 | if every `startScan` follows a `stopScan`, at most one registration is active, and one is active exactly when the last call was `startScan` |
| `Scanning.MainActivity.StopScan` | app/src/main/java/com/github/airpodsbattery/MainActivity.kt:98 | one `stopScan` call is recorded and the callback is no longer registered |
| `Scanning.MainActivity.CheckBluetoothEnabled` | app/src/main/java/com/github/airpodsbattery/MainActivity.kt:129-137 | the check passes exactly when the adapter is enabled |
| `Scanning.MainActivity.CheckPermissions` | app/src/main/java/com/github/airpodsbattery/MainActivity.kt:139-160 | all four permissions get a status line, in order, whatever the earlier ones gave; the verdict is true exactly when all four are granted |
| `Scanning.MainActivity.StartScan` | app/src/main/java/com/github/airpodsbattery/MainActivity.kt:162-169 | one `startScan` call carrying the beacon filter list is recorded, and the callback is registered |
| `Scanning.MainActivity.Start` | app/src/main/java/com/github/airpodsbattery/MainActivity.kt:97-108 | `stopScan` is issued first; `startScan` follows exactly when Bluetooth is enabled and all permissions are granted; afterwards the callback is registered exactly then, never twice |
| `Scanning.MainActivity.OnDestroy` | app/src/main/java/com/github/airpodsbattery/MainActivity.kt:84-87 | `stopScan` is always issued and no registration remains |
| `Scanning.MainActivity.OnScanResult` | app/src/main/java/com/github/airpodsbattery/MainActivity.kt:48-56 | a null result is dropped; any other result is decoded once, together with its callback type |
| `Scanning.MainActivity.OnBatchScanResults` | app/src/main/java/com/github/airpodsbattery/MainActivity.kt:58-66 | a null batch is dropped; otherwise each result is decoded in list order with callback type -1, and earlier deliveries are kept |

## Left out

- User interface: `setContentView`, `textView()`, `refreshBtn()`, the scrolling movement
  method and the click listener (lines 74-95). `onCreate` and the refresh button both just
  call `start`, which `MainActivity.Start` models.
- `log` and `runOnUiThread` (lines 110-115). Log text is not modelled. The per-permission
  status lines are returned by `CheckPermissions`. What would be logged about a scan result
  is recorded in the ghost `deliveries` sequence.
- The timestamp written by `start` (line 99). It reads the clock and uses library formatting.
- The listing of bonded devices in `startScan` (lines 163-166). It is informational I/O and
  changes nothing.
- `scanSettings` (lines 30-33). These are library constants (low-latency mode, report delay
  2) with no logic in them. The settings are not recorded in the `StartScan` call.
- `MainActivity.Start`, `MainActivity.StopScan`, `MainActivity.OnDestroy`: the scanner is
  assumed reachable whenever they run. The platform getter behind `bluetoothScanner()`
  (lines 125-127) can yield null when Bluetooth LE access is off. The `stopScan` at line 98
  or line 86 then throws a NullPointerException. That exception is not modelled.
- `onScanFailed` (lines 68-71). It only logs, and the code keeps no failure state.
- The Android Bluetooth, scanner and permission APIs. They are replaced by the `enabled` and
  `grants` fields, the `registered` flag and the recorded scanner calls. A scanner that
  refuses a second registration is not modelled, because the activity never tries one.
- Concurrency. Callbacks arrive on the scanner's own thread, possibly while `start` runs.
  The model runs every entry point to completion, one at a time.
- `AdvertisementFilter.Matches` is the radio stack's masked comparison, written into the
  model. The activity itself does not contain it.
- `Hex.DigitValue` handles only ASCII digits and letters. `Character.digit` also accepts
  other Unicode digit forms, which cannot occur in a `%02X` rendering.
