/** `convertXPToReadable`: a quantity of XP shown in bytes, kilobytes or
    megabytes. The decimal digits `toFixed(2)` would print are not modelled; a
    `Readable` carries the exact quantity that is printed and its unit. */
module Formatter {

  datatype Unit = B | KB | MB

  /** How many XP one of `u` stands for. */
  function Scale(u: Unit): real {
    match u
    case B => 1.0
    case KB => 1000.0
    case MB => 1000000.0
  }

  /** The text that follows the number. */
  function Suffix(u: Unit): string {
    match u
    case B => " B"
    case KB => " KB"
    case MB => " MB"
  }

  /** Units in increasing size. */
  function UnitRank(u: Unit): nat {
    match u
    case B => 0
    case KB => 1
    case MB => 2
  }

  /** The number to print (verbatim for bytes, to two decimals otherwise) and
      its unit. */
  datatype Readable = Readable(quantity: real, unit: Unit)

  /** The rendered text, given the digits the number prints as. */
  function Text(r: Readable, digits: string): (t: string)
    ensures |t| > |digits|
    ensures t[..|digits|] == digits
    ensures t[|digits|..] == Suffix(r.unit)
  {
    digits + Suffix(r.unit)
  }

  function ConvertXPToReadable(xp: real): (r: Readable)
    ensures r.unit == B <==> xp < 1000.0
    ensures r.unit == KB <==> 1000.0 <= xp < 1000000.0
    ensures r.unit == MB <==> 1000000.0 <= xp
    ensures r.quantity * Scale(r.unit) == xp
    ensures r.unit != B ==> 1.0 <= r.quantity
    ensures r.unit == KB ==> r.quantity < 1000.0
  {
    if xp < 1000.0 then Readable(xp, B)
    else if xp < 1000000.0 then Readable(xp / 1000.0, KB)
    else Readable(xp / 1000000.0, MB)
  }

  /** Whatever digits are printed, the text of a converted amount ends in the
      suffix of its tier. */
  lemma TextTiers(xp: real, digits: string)
    ensures var t := Text(ConvertXPToReadable(xp), digits);
      && (xp < 1000.0 ==> t[|digits|..] == " B")
      && (1000.0 <= xp < 1000000.0 ==> t[|digits|..] == " KB")
      && (1000000.0 <= xp ==> t[|digits|..] == " MB")
  {
  }

  /** A larger quantity never gets a smaller unit. */
  lemma UnitMonotone(a: real, b: real)
    requires a <= b
    ensures UnitRank(ConvertXPToReadable(a).unit) <= UnitRank(ConvertXPToReadable(b).unit)
  {
  }

  /** The four worked examples: 999 bytes, 1.00 KB, 1.00 MB and 1.50 MB. */
  lemma ConvertExamples()
    ensures ConvertXPToReadable(999.0) == Readable(999.0, B)
    ensures ConvertXPToReadable(1000.0) == Readable(1.0, KB)
    ensures ConvertXPToReadable(1000000.0) == Readable(1.0, MB)
    ensures ConvertXPToReadable(1500000.0) == Readable(1.5, MB)
    ensures Text(ConvertXPToReadable(999.0), "999") == "999 B"
  {
  }
}
