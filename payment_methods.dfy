/** The three payment methods the shop offers, and their wire names ('sbp', 'tbank', 'sber'). */
module PaymentMethods {
  import opened Wrappers

  datatype PaymentMethod = Sbp | Tbank | Sber

  /** The string the method is stored and sent as. */
  function Name(m: PaymentMethod): string {
    match m
    case Sbp => "sbp"
    case Tbank => "tbank"
    case Sber => "sber"
  }

  /** The method a wire name denotes; every other string denotes none. */
  function Parse(s: string): (r: Option<PaymentMethod>)
    ensures r.Some? ==> Name(r.value) == s
    ensures r.None? ==> forall m: PaymentMethod :: Name(m) != s
  {
    if s == "sbp" then Some(Sbp)
    else if s == "tbank" then Some(Tbank)
    else if s == "sber" then Some(Sber)
    else None
  }

  /** Parsing a method's name gives the method back. */
  lemma ParseName(m: PaymentMethod)
    ensures Parse(Name(m)) == Some(m)
  {
  }
}
