/** Types shared by the USSD menus: the reference table of Kano Local
    Government Areas. */
module UssdTypes {
  import JsSemantics

  datatype Lga = Lga(id: string, name: string)

  /** The Kano LGA table, in menu order: entry i has id i + 1 and the last
      entry is the catch-all "Other". */
  function KanoLgas(): (t: seq<Lga>)
    ensures |t| == 9
    ensures forall i :: 0 <= i < |t| ==> t[i].id == JsSemantics.NatToDecimal(i + 1)
    ensures t[8] == Lga("9", "Other")
    ensures forall i, j :: 0 <= i < j < |t| ==> t[i].name != t[j].name
    ensures forall i :: 0 <= i < |t| ==> t[i].name != ""
  {
    [ Lga("1", "Kano Municipal"),
      Lga("2", "Dala"),
      Lga("3", "Gwale"),
      Lga("4", "Fagge"),
      Lga("5", "Tarauni"),
      Lga("6", "Nassarawa"),
      Lga("7", "Kumbotso"),
      Lga("8", "Ungogo"),
      Lga("9", "Other") ]
  }
}
