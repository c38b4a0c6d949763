/**
 * `src/components/WalletCard.tsx`: the "add funds" dialog. The typed amount
 * is parsed (`parseFloat`, given here as its result); only a positive
 * number, `Infinity` included, is passed on, after which the field is
 * cleared and the dialog closes.
 */
module WalletCard {

  /**
   * What `parseFloat` can return: NaN, either infinity (for "Infinity" or a
   * literal too large for a double, such as "1e400"), or a finite number.
   */
  datatype JsNumber = NaN | Infinity | NegInfinity | Finite(value: real)

  /** `!isNaN(n) && n > 0`: the check both money forms apply to a parsed amount. */
  predicate PositiveAmount(parsed: JsNumber)
  {
    parsed.Infinity? || (parsed.Finite? && parsed.value > 0.0)
  }

  class WalletCardState {
    var isAddFundsOpen: bool
    var amount: string
    /** The amounts handed to `onAddFunds`, in order. */
    var added: seq<JsNumber>

    constructor ()
      ensures !isAddFundsOpen && amount == "" && added == []
    {
      isAddFundsOpen := false;
      amount := "";
      added := [];
    }

    /**
     * `handleAddFunds`, where `parsed` is `parseFloat(amount)`: NaN or a
     * non-positive amount is refused and nothing changes; a positive one,
     * `Infinity` included, is passed on unchanged, the field is reset and the
     * dialog closed.
     */
    method HandleAddFunds(parsed: JsNumber) returns (accepted: bool)
      modifies this`isAddFundsOpen, this`amount, this`added
      ensures accepted <==> parsed.Infinity? || (parsed.Finite? && parsed.value > 0.0)
      ensures accepted ==> added == old(added) + [parsed] && amount == "" && !isAddFundsOpen
      ensures !accepted ==> added == old(added) && amount == old(amount) && isAddFundsOpen == old(isAddFundsOpen)
    {
      if parsed.NaN? || parsed.NegInfinity? || (parsed.Finite? && parsed.value <= 0.0) {
        return false;
      }
      added := added + [parsed];
      amount := "";
      isAddFundsOpen := false;
      accepted := true;
    }
  }
}
