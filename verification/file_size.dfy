/**
  The size column's unit choice, shared verbatim by the materials list and the file card:
  bytes below 1024, kilobytes below 1024 * 1024, megabytes above.
 */
module FileSize {
  datatype SizeUnit = Bytes | Kilobytes | Megabytes

  const KiB: real := 1024.0
  const MiB: real := 1024.0 * 1024.0

  function Suffix(u: SizeUnit): string {
    match u
    case Bytes => "B"
    case Kilobytes => "KB"
    case Megabytes => "MB"
  }

  /** The unit the size is shown in. */
  function UnitFor(bytes: real): (u: SizeUnit)
    ensures u == Bytes <==> bytes < 1024.0
    ensures u == Kilobytes <==> 1024.0 <= bytes < 1048576.0
    ensures u == Megabytes <==> bytes >= 1048576.0
  {
    if bytes < KiB then Bytes
    else if bytes < MiB then Kilobytes
    else Megabytes
  }

  /** The number printed before the suffix, before rounding to one decimal. */
  function Magnitude(bytes: real): (m: real)
    ensures UnitFor(bytes) == Bytes ==> m == bytes
    ensures UnitFor(bytes) == Kilobytes ==> m * 1024.0 == bytes
    ensures UnitFor(bytes) == Megabytes ==> m * 1048576.0 == bytes
  {
    match UnitFor(bytes)
    case Bytes => bytes
    case Kilobytes => bytes / KiB
    case Megabytes => bytes / MiB
  }

  function Rank(u: SizeUnit): nat {
    match u
    case Bytes => 0
    case Kilobytes => 1
    case Megabytes => 2
  }

  /** A larger file never gets a smaller unit. */
  lemma UnitMonotone(a: real, b: real)
    requires a <= b
    ensures Rank(UnitFor(a)) <= Rank(UnitFor(b))
  {
  }

  /** For a non-negative size the printed number lies in [0, 1024) for B and KB, and is at least 1 for MB. */
  lemma MagnitudeInRange(bytes: real)
    requires bytes >= 0.0
    ensures UnitFor(bytes) != Megabytes ==> 0.0 <= Magnitude(bytes) < 1024.0
    ensures UnitFor(bytes) != Bytes ==> Magnitude(bytes) >= 1.0
  {
  }

  /** The dashboard's mock sizes, 3.5, 1.2 and 15 million bytes, all show in MB. */
  lemma MockSizeUnits()
    ensures UnitFor(3500000.0) == Megabytes && UnitFor(1200000.0) == Megabytes
    ensures UnitFor(15000000.0) == Megabytes
  {
  }

  /** The browse page's mock sizes: the four given in MiB show in MB, 950 and 450 KiB in KB. */
  lemma BrowseSizeUnits()
    ensures UnitFor(3.2 * 1024.0 * 1024.0) == Megabytes && UnitFor(1.8 * 1024.0 * 1024.0) == Megabytes
    ensures UnitFor(12.4 * 1024.0 * 1024.0) == Megabytes && UnitFor(2.7 * 1024.0 * 1024.0) == Megabytes
    ensures UnitFor(950.0 * 1024.0) == Kilobytes && UnitFor(450.0 * 1024.0) == Kilobytes
  {
  }

  /** The bucket edges fall where the strict comparisons put them. */
  lemma UnitEdges()
    ensures UnitFor(1023.0) == Bytes && UnitFor(1024.0) == Kilobytes
    ensures UnitFor(1048575.0) == Kilobytes && UnitFor(1048576.0) == Megabytes
  {
  }
}
