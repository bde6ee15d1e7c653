/**
 * `BytesToStringConverter`: an allocation size in bytes shown as nothing, as
 * bytes, as kilobytes or as megabytes.
 */
module BytesToStringConverter {
  import opened Wrappers
  import opened Host
  import Text

  /** The bucket a size falls in; kilobytes and megabytes carry the scaled value, printed with three decimals. */
  datatype SizeText = Blank | InBytes(text: string) | InKilobytes(kilobytes: real) | InMegabytes(megabytes: real)

  /** `Convert`: the arms of the switch, tried in order. */
  function Convert(bytes: int): (r: SizeText)
    ensures r == Blank <==> bytes == 0
    ensures r.InBytes? <==> bytes != 0 && bytes < 1000
    ensures r.InKilobytes? <==> 1000 <= bytes < 1000000
    ensures r.InMegabytes? <==> 1000000 <= bytes
    ensures r.InBytes? ==> r.text == Text.IntToString(bytes) + " B"
    ensures r.InKilobytes? ==> r.kilobytes * 1000.0 == bytes as real && 1.0 <= r.kilobytes < 1000.0
    ensures r.InMegabytes? ==> r.megabytes * 1000000.0 == bytes as real && 1.0 <= r.megabytes
  {
    if bytes == 0 then Blank
    else if bytes < 1000 then InBytes(Text.IntToString(bytes) + " B")
    else if bytes < 1000000 then InKilobytes(bytes as real / 1000.0)
    else InMegabytes(bytes as real / 1000000.0)
  }

  /** Negative sizes fall in the byte bucket, sign included. */
  lemma NegativeShownInBytes(bytes: int)
    requires bytes < 0
    ensures Convert(bytes) == InBytes("-" + Text.NatToString(-bytes) + " B")
  {
  }

  const NotSupported: Exception := Exception(NotSupportedException, "Specified method is not supported.")

  /** `ConvertBack`: not supported, whatever the input. */
  function ConvertBack(text: SizeText): (r: Result<int, Exception>)
    ensures r == Failure(NotSupported)
  {
    Failure(NotSupported)
  }
}
