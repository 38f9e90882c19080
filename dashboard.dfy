/** The derived, read-only parts of the dashboard and the chat screen:
    the status line and the two enable rules. */
module Dashboard {

  /** The three status lines of the spark card. */
  datatype Status = Dormant | Scanning | Found

  /** The status selected by the nested `if` of the spark card. */
  function StatusOf(isSparkActive: bool, nearbySparks: int): (st: Status)
    ensures st == Dormant <==> !isSparkActive
    ensures st == Found <==> isSparkActive && nearbySparks > 0
    ensures st == Scanning <==> isSparkActive && nearbySparks <= 0
  {
    if isSparkActive then
      if nearbySparks > 0 then Found else Scanning
    else
      Dormant
  }

  /** The line the spark card shows; each text is shown for exactly one status. */
  function StatusText(st: Status): (text: string)
    ensures text == "Spark Found! Tap to Connect" <==> st == Found
    ensures text == "Scanning Safe Zone..." <==> st == Scanning
    ensures text == "Spark Dormant" <==> st == Dormant
  {
    match st
    case Found => "Spark Found! Tap to Connect"
    case Scanning => "Scanning Safe Zone..."
    case Dormant => "Spark Dormant"
  }

  /** Different statuses show different texts, so the text alone tells the status. */
  lemma StatusTextInjective(a: Status, b: Status)
    requires StatusText(a) == StatusText(b)
    ensures a == b
  {
  }

  /** The spark button is disabled exactly when no spark is nearby; for a count that is not
      negative, it is enabled exactly when its action's own `> 0` guard lets the tap through. */
  function SparkTapEnabled(nearbySparks: int): (enabled: bool)
    ensures !enabled <==> nearbySparks == 0
    ensures nearbySparks >= 0 ==> (enabled <==> nearbySparks > 0)
  {
    nearbySparks != 0
  }

  /** The send button is disabled exactly when the text field is empty. */
  function SendEnabled(messageText: string): (enabled: bool)
  {
    messageText != []
  }

  /** A draft made only of spaces, tabs and line breaks. */
  predicate IsBlank(text: string) {
    forall i | 0 <= i < |text| :: text[i] in {' ', '\t', '\n', '\r'}
  }

  /** Only emptiness is checked: every blank draft that is not empty enables the send button. */
  lemma WhitespaceCanBeSent(text: string)
    requires text != [] && IsBlank(text)
    ensures SendEnabled(text)
  {
  }

  /** With zero or one spark nearby the button is enabled exactly when the active card reads "Found". */
  lemma TapEnabledMeansFound(nearbySparks: int)
    requires nearbySparks == 0 || nearbySparks == 1
    ensures SparkTapEnabled(nearbySparks) <==> StatusOf(true, nearbySparks) == Found
  {
  }
}
