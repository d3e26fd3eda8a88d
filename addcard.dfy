/** The card form of src/screens/AddCardScreen.tsx: four text fields, three of
    them capped by the input's `maxLength`, a live card preview and the
    Add Card button. */
module AddCard {

  const NumberMax: nat := 19
  const ExpiryMax: nat := 5
  const CvvMax: nat := 3

  const NumberPlaceholder: string := "1234 5678 9012 3456"
  const NamePlaceholder: string := "CARDHOLDER NAME"
  const ExpiryPlaceholder: string := "MM/YY"

  /** What a text input with `maxLength` `n` keeps of a text: its first `n` characters. */
  function Capped(text: string, n: nat): (r: string)
    ensures |r| <= n && |r| <= |text|
    ensures r == text[..|r|]
    ensures |text| <= n ==> r == text
    ensures |text| > n ==> |r| == n
  {
    if |text| <= n then text else text[..n]
  }

  /** `value || placeholder`: the preview shows the value, or the placeholder
      while the field is empty. */
  function Preview(value: string, placeholder: string): (r: string)
    ensures value != "" ==> r == value
    ensures value == "" ==> r == placeholder
    ensures placeholder != "" ==> r != ""
  {
    if value != "" then value else placeholder
  }

  class AddCardScreen {
    var cardNumber: string
    var cardName: string
    var expiryDate: string
    var cvv: string

    /** The capped fields never hold more than their input allows. */
    ghost predicate Valid()
      reads this
    {
      |cardNumber| <= NumberMax && |expiryDate| <= ExpiryMax && |cvv| <= CvvMax
    }

    constructor ()
      ensures Valid()
      ensures cardNumber == "" && cardName == "" && expiryDate == "" && cvv == ""
      ensures !AddCardEnabled()
    {
      cardNumber := "";
      cardName := "";
      expiryDate := "";
      cvv := "";
    }

    /** The Add Card button is enabled only when every field is filled in. */
    predicate AddCardEnabled()
      reads this
    {
      cardNumber != "" && cardName != "" && expiryDate != "" && cvv != ""
    }

    method SetCardNumber(text: string)
      modifies this`cardNumber
      requires Valid()
      ensures Valid()
      ensures cardNumber == Capped(text, NumberMax)
    {
      cardNumber := Capped(text, NumberMax);
    }

    method SetCardName(text: string)
      modifies this`cardName
      requires Valid()
      ensures Valid()
      ensures cardName == text
    {
      cardName := text;
    }

    method SetExpiryDate(text: string)
      modifies this`expiryDate
      requires Valid()
      ensures Valid()
      ensures expiryDate == Capped(text, ExpiryMax)
    {
      expiryDate := Capped(text, ExpiryMax);
    }

    method SetCvv(text: string)
      modifies this`cvv
      requires Valid()
      ensures Valid()
      ensures cvv == Capped(text, CvvMax)
    {
      cvv := Capped(text, CvvMax);
    }

    /** The three preview texts. */
    method CardPreview() returns (number: string, name: string, expiry: string)
      ensures number == Preview(cardNumber, NumberPlaceholder)
      ensures name == Preview(cardName, NamePlaceholder)
      ensures expiry == Preview(expiryDate, ExpiryPlaceholder)
      ensures number != "" && name != "" && expiry != ""
    {
      number := Preview(cardNumber, NumberPlaceholder);
      name := Preview(cardName, NamePlaceholder);
      expiry := Preview(expiryDate, ExpiryPlaceholder);
    }

    /** Pressing Add Card: ignored while disabled; `handleAddCard` only goes
        back, so no field changes and nothing is stored either way. */
    method PressAddCard() returns (leaves: bool)
      ensures leaves <==> cardNumber != "" && cardName != "" && expiryDate != "" && cvv != ""
    {
      leaves := AddCardEnabled();
    }
  }
}
