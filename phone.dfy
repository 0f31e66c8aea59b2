/** The dialer (PhoneApp in components/Apps.tsx): a number buffer and a call in progress. */
module Phone {

  /** The keys of the dial pad, in their on-screen order. */
  const DialPad: seq<string> := ["1", "2", "3", "4", "5", "6", "7", "8", "9", "*", "0", "#"]

  class Dialer {
    var number: string
    var calling: bool

    /** A call is only ever placed with a number entered. */
    ghost predicate Valid()
      reads this
    {
      calling ==> number != ""
    }

    constructor ()
      ensures Valid() && number == "" && !calling
    {
      number := "";
      calling := false;
    }

    /** press: a dial-pad key is appended to the number. */
    method Press(d: string)
      requires Valid() && d in DialPad
      modifies this
      ensures Valid()
      ensures number == old(number) + d && calling == old(calling)
    {
      number := number + d;
    }

    /** The Call button: dials only when a number was entered. */
    method Call()
      requires Valid()
      modifies this
      ensures Valid()
      ensures calling == (old(calling) || old(number) != "") && number == old(number)
    {
      if number != "" {
        calling := true;
      }
    }

    /** The End Call button; the number stays. */
    method EndCall()
      requires Valid()
      modifies this
      ensures Valid()
      ensures !calling && number == old(number)
    {
      calling := false;
    }
  }
}
