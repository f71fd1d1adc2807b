/** Tool names as the program uses them and as they are sent. */
module ToolNames {
  function WireName(name: string): string {
    if name == "web_search" then "kiliax_web_search" else name
  }

  function InternalName(name: string): string {
    if name == "kiliax_web_search" then "web_search" else name
  }

  /** A name that is sent and comes back is the same, but for the one that is already the wire form of another. */
  lemma {:induction false} NamesRoundTripIff(name: string)
    ensures InternalName(WireName(name)) == name <==> name != "kiliax_web_search"
    ensures WireName(name) != "web_search"
  {
    assert |"web_search"| != |"kiliax_web_search"|;
  }
}
