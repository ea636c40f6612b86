/** `updateStatusBar`: what the status-bar item shows for each server status. */
module StatusBar {

  import opened Text

  /** The statuses the status-bar item can show. */
  datatype Status = Running | Stopped | Error

  /** The fixed port the server listens on. */
  const Port: nat := 12800

  /** `${PORT}` as the running tooltip writes it. */
  const PortText: string := "12800"

  /** The running tooltip's text before the port. */
  const RunningPrefix: string := "Server is running on port "

  /** The tooltip's port text is the decimal rendering of the port. */
  lemma PortTextIsDecimal()
    ensures PortText == Decimal(Port)
  {
    assert Decimal(1) == "1";
    assert Decimal(12) == "12";
    assert Decimal(128) == "128";
    assert Decimal(1280) == "1280";
  }

  /** The item's text, its tooltip, and whether it has the error background colour. */
  datatype View = View(text: string, tooltip: string, errorBackground: bool)

  /** The item's appearance for a status; clicking it toggles the server. */
  function Present(status: Status): (v: View)
    ensures v.errorBackground <==> status == Error
    ensures status == Running ==> |v.tooltip| >= |RunningPrefix| + |PortText|
    ensures status == Running ==> v.tooltip[..|RunningPrefix|] == RunningPrefix
    ensures status == Running ==> v.tooltip[|RunningPrefix|..|RunningPrefix| + |PortText|] == PortText
  {
    match status
    case Running =>
      View("$(radio-tower) FEIC connected",
           RunningPrefix + PortText + ". Click to stop.", false)
    case Stopped =>
      View("$(circle-slash) FEIC disconnected", "Server is stopped. Click to start.", false)
    case Error =>
      View("$(error) FEIC errored", "Server encountered an error. Click to retry.", true)
  }

  /** Each status has its own text and its own tooltip, so the item always tells them apart. */
  lemma PresentDistinguishes(a: Status, b: Status)
    ensures Present(a).text == Present(b).text <==> a == b
    ensures Present(a).tooltip == Present(b).tooltip <==> a == b
  {
  }
}
