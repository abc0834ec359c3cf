/** The notification posted with the card: the embed's fields and the name
    of the attached file. */
module Notify {
  import Naming

  const JoinTitle := "New user joined the server"
  const LeaveTitle := "User left the server"
  const JoinGreeting := "Welcome to the server"
  const LeaveGreeting := "Bye, we hope you will come back!"
  const Green := "#00FF00"
  const Red := "#FF0000"
  const AttachmentScheme := "attachment://"

  /** The embed without its timestamp, and the name the attachment is sent under. */
  datatype Notification = Notification(
    title: string, description: string, imageRef: string, color: string, attachmentName: string)

  /** The greeting is chosen by testing for the kind "Welcome"; every other
      kind, whatever string it is, gets the departure copy. */
  function Greeting(kind: string): (r: string)
    ensures r == JoinGreeting <==> kind == "Welcome"
    ensures r == LeaveGreeting <==> kind != "Welcome"
  {
    if kind == "Welcome" then JoinGreeting else LeaveGreeting
  }

  /** The notification for one event. The embed's image points at the
      attachment by its file name, which is the member's screenshot name. */
  function BuildNotification(kind: string, username: string, memberId: string): (n: Notification)
    ensures n.attachmentName == Naming.ArtifactName(memberId)
    ensures n.imageRef == AttachmentScheme + n.attachmentName
    ensures n.title == JoinTitle && n.color == Green <==> kind == "Welcome"
    ensures n.title == LeaveTitle && n.color == Red <==> kind != "Welcome"
  {
    var welcome := kind == "Welcome";
    Notification(
      if welcome then JoinTitle else LeaveTitle,
      Greeting(kind) + ", " + username + "!",
      AttachmentScheme + memberId + Naming.PngExtension,
      if welcome then Green else Red,
      memberId + Naming.PngExtension)
  }

  /** The description ends with the user name and an exclamation mark,
      after the greeting and ", ". */
  lemma DescriptionNamesUser(kind: string, username: string, memberId: string)
    ensures var d := BuildNotification(kind, username, memberId).description;
      |d| == |Greeting(kind)| + |username| + 3 &&
      d[..|Greeting(kind)| + 2] == Greeting(kind) + ", " &&
      d[|Greeting(kind)| + 2..] == username + "!"
  {
  }
}
