/** The join and leave handlers: compose the card, screenshot it into the
    images folder, post it if the welcome channel is found and then delete
    it. The filesystem is a map from paths to entries and the channel's
    history a list of deliveries. */
module Lifecycle {
  import opened Wrappers
  import Naming
  import Card
  import CardText
  import Notify
  import Text

  /** A directory, or a PNG screenshot, abstracted as the card document it
      was rendered from. */
  datatype Entry = Dir | Png(card: string)

  type Files = map<string, Entry>

  datatype User = User(id: string, username: string, avatar: Option<string>)
  /** A guild member: its own id (which names the screenshot) and its user
      (whose id is in the avatar address). */
  datatype Member = Member(id: string, user: User)
  datatype Channel = Channel(id: string)

  /** One message the bot posted: the embed and the attached screenshot. */
  datatype Delivery = Delivery(channel: Channel, notification: Notify.Notification,
                               attachmentPath: string, card: string)

  datatype World = World(files: Files, outbox: seq<Delivery>)

  datatype EventKind = Join | Leave

  /** The capture viewport of the screenshot, in pixels (the rendering
      itself is not modelled). */
  const ViewportWidth := 1100
  const ViewportHeight := 500

  /** How a run ends. A run whose screenshot cannot be written, or whose
      attachment cannot be read, rejects; the model records why. */
  datatype Outcome = Sent | ChannelMissing | CaptureFailed | AttachmentUnreadable

  /** The kind string each handler passes along. */
  function KindText(e: EventKind): (r: string)
    ensures r == "Welcome" <==> e == Join
    ensures r == "Bye" <==> e == Leave
  {
    match e
    case Join => "Welcome"
    case Leave => "Bye"
  }

  /** Creates the folder only when nothing is at its path. */
  function EnsureFolder(files: Files, folder: string): (r: Files)
    ensures folder in r
    ensures folder in files ==> r == files
    ensures folder !in files ==> r[folder] == Dir
    ensures forall p :: p in files && p != folder ==> p in r && r[p] == files[p]
    ensures forall p :: p in r ==> p in files || p == folder
  {
    if folder in files then files else files[folder := Dir]
  }

  /** Creating the folder twice is creating it once. */
  lemma EnsureFolderIdempotent(files: Files, folder: string)
    ensures EnsureFolder(EnsureFolder(files, folder), folder) == EnsureFolder(files, folder)
  {
  }

  /** A screenshot can be written to `path` when the images folder is a
      directory and `path` itself is not one. */
  predicate Writable(files: Files, path: string)
  {
    Naming.ImagesDir in files && files[Naming.ImagesDir] == Dir &&
    !(path in files && files[path] == Dir)
  }

  /** The folder is created when absent, then the card rendered from the
      inputs is written to the member's path, replacing what was there; the
      path is returned, or None when the write fails. */
  function Capture(files: Files, kind: string, nick: string, avatarUrl: string, userId: string)
    : (r: (Files, Option<string>))
    ensures r.1.Some? <==> Writable(EnsureFolder(files, Naming.ImagesDir), Naming.ArtifactPath(userId))
    ensures r.1.Some? ==> r.1.value == Naming.ArtifactPath(userId)
    ensures Naming.ImagesDir in r.0
    ensures r.1.Some? ==> r.1.value in r.0 && r.0[r.1.value] == Png(Card.Compose(kind, nick, avatarUrl))
    ensures r.1.None? ==> r.0 == EnsureFolder(files, Naming.ImagesDir)
    ensures forall p :: p != Naming.ImagesDir && p != Naming.ArtifactPath(userId) ==>
      (p in r.0 <==> p in files) && (p in files ==> r.0[p] == files[p])
  {
    var f := EnsureFolder(files, Naming.ImagesDir);
    var path := Naming.ArtifactPath(userId);
    if Writable(f, path) then (f[path := Png(Card.Compose(kind, nick, avatarUrl))], Some(path))
    else (f, None)
  }

  /** With no channel nothing happens. Otherwise the notification is posted
      with the file attached and the file is then deleted; a path that holds
      no screenshot cannot be attached, and nothing is posted or deleted. */
  function Send(w: World, kind: string, member: Member, filePath: string, channel: Option<Channel>)
    : (r: (World, Outcome))
    ensures channel.None? ==> r == (w, ChannelMissing)
    ensures channel.Some? && !(filePath in w.files && w.files[filePath].Png?) ==>
      r == (w, AttachmentUnreadable)
    ensures channel.Some? && filePath in w.files && w.files[filePath].Png? ==>
      r.1 == Sent && filePath !in r.0.files &&
      (forall p :: p in r.0.files <==> p in w.files && p != filePath) &&
      (forall p :: p in r.0.files ==> r.0.files[p] == w.files[p]) &&
      |r.0.outbox| == |w.outbox| + 1 && r.0.outbox[..|w.outbox|] == w.outbox &&
      r.0.outbox[|w.outbox|] == Delivery(channel.value,
        Notify.BuildNotification(kind, member.user.username, member.id),
        filePath, w.files[filePath].card)
  {
    match channel
    case None => (w, ChannelMissing)
    case Some(c) =>
      if filePath in w.files && w.files[filePath].Png? then
        var n := Notify.BuildNotification(kind, member.user.username, member.id);
        (World(w.files - {filePath}, w.outbox + [Delivery(c, n, filePath, w.files[filePath].card)]), Sent)
      else (w, AttachmentUnreadable)
  }

  /** The avatar address both handlers build for a member. */
  function MemberAvatarUrl(m: Member): string
  {
    Naming.AvatarUrl(m.user.id, m.user.avatar)
  }

  /** One handler run: capture the screenshot, then send it. */
  function Run(w: World, e: EventKind, m: Member, channel: Option<Channel>): (r: (World, Outcome))
    ensures r.1 == CaptureFailed <==> !CanCapture(w.files, m.id)
    ensures r.1 == Sent <==> CanCapture(w.files, m.id) && channel.Some?
    ensures r.1 == ChannelMissing <==> CanCapture(w.files, m.id) && channel.None?
    ensures r.1 != AttachmentUnreadable
  {
    CaptureWritable(w.files, m.id);
    var kind := KindText(e);
    var (f, path) := Capture(w.files, kind, m.user.username, MemberAvatarUrl(m), m.id);
    match path
    case None => (World(f, w.outbox), CaptureFailed)
    case Some(p) => Send(World(f, w.outbox), kind, m, p, channel)
  }

  /** The world before a run admits the screenshot: no file stands where
      the folder goes and no directory where the screenshot goes. */
  predicate CanCapture(files: Files, memberId: string)
  {
    (Naming.ImagesDir in files ==> files[Naming.ImagesDir] == Dir) &&
    !(Naming.ArtifactPath(memberId) in files && files[Naming.ArtifactPath(memberId)] == Dir)
  }

  lemma CaptureWritable(files: Files, memberId: string)
    ensures Writable(EnsureFolder(files, Naming.ImagesDir), Naming.ArtifactPath(memberId))
        <==> CanCapture(files, memberId)
  {
  }

  /** The screenshot a run for `m` writes, named by its path. */
  function CardOf(e: EventKind, m: Member): string
  {
    Card.Compose(KindText(e), m.user.username, MemberAvatarUrl(m))
  }

  /** With the channel found, one message is posted, carrying the
      notification for the event and the card for the member, and the
      screenshot is deleted afterwards; the images folder stays. */
  lemma RunDelivers(w: World, e: EventKind, m: Member, c: Channel)
    requires CanCapture(w.files, m.id)
    ensures var (w', o) := Run(w, e, m, Some(c));
      var path := Naming.ArtifactPath(m.id);
      o == Sent &&
      path !in w'.files &&
      Naming.ImagesDir in w'.files && w'.files[Naming.ImagesDir] == Dir &&
      w'.outbox == w.outbox + [Delivery(c, Notify.BuildNotification(KindText(e), m.user.username, m.id),
                                        path, CardOf(e, m))]
  {
  }

  /** With the channel missing, nothing is posted and the screenshot is
      left behind in the images folder. */
  lemma RunWithoutChannel(w: World, e: EventKind, m: Member)
    requires CanCapture(w.files, m.id)
    ensures var (w', o) := Run(w, e, m, None);
      var path := Naming.ArtifactPath(m.id);
      o == ChannelMissing && w'.outbox == w.outbox &&
      path in w'.files && w'.files[path] == Png(CardOf(e, m)) &&
      Naming.ImagesDir in w'.files && w'.files[Naming.ImagesDir] == Dir
  {
  }

  /** When the screenshot cannot be written, nothing is posted and nothing
      is written at the member's path. */
  lemma RunCaptureFails(w: World, e: EventKind, m: Member, channel: Option<Channel>)
    requires !CanCapture(w.files, m.id)
    ensures var (w', o) := Run(w, e, m, channel);
      var path := Naming.ArtifactPath(m.id);
      o == CaptureFailed && w'.outbox == w.outbox &&
      (path in w'.files <==> path in w.files) &&
      (path in w.files ==> w'.files[path] == w.files[path])
  {
  }

  /** A run touches only the images folder and the member's own path, and
      it posts at most one message, after the earlier ones. */
  lemma RunFrame(w: World, e: EventKind, m: Member, channel: Option<Channel>)
    ensures var w' := Run(w, e, m, channel).0;
      (forall p :: p != Naming.ImagesDir && p != Naming.ArtifactPath(m.id) ==>
         (p in w'.files <==> p in w.files) && (p in w.files ==> w'.files[p] == w.files[p])) &&
      |w.outbox| <= |w'.outbox| <= |w.outbox| + 1 && w'.outbox[..|w.outbox|] == w.outbox
  {
  }

  /** Two runs for the same member use the same path, so a screenshot left
      behind by a run without a channel is overwritten and then deleted by
      the member's next run that finds the channel. */
  lemma LeftoverReclaimed(w: World, e1: EventKind, e2: EventKind, m: Member, c: Channel)
    requires CanCapture(w.files, m.id)
    ensures var w1 := Run(w, e1, m, None).0;
      var (w2, o2) := Run(w1, e2, m, Some(c));
      Naming.ArtifactPath(m.id) in w1.files &&
      o2 == Sent && Naming.ArtifactPath(m.id) !in w2.files &&
      w2.outbox == w.outbox + [Delivery(c, Notify.BuildNotification(KindText(e2), m.user.username, m.id),
                                        Naming.ArtifactPath(m.id), CardOf(e2, m))]
  {
    RunWithoutChannel(w, e1, m);
    var w1 := Run(w, e1, m, None).0;
    assert CanCapture(w1.files, m.id);
    RunDelivers(w1, e2, m, c);
  }

  /** The card's sub-message and the embed test the kind differently
      ("Bye" against "Welcome"); they tell the same story (welcome copy with
      green, farewell copy with red) exactly for the two kinds the handlers
      pass. */
  lemma KindTestsAgree(kind: string, username: string, memberId: string)
    ensures (Card.SubMessage(kind) == CardText.WelcomeText
             <==> Notify.BuildNotification(kind, username, memberId).color == Notify.Green)
        <==> kind == "Welcome" || kind == "Bye"
  {
  }

  /** A join posts a green notification with the welcome card, a leave a
      red one with the farewell card; the embed's image names the attached
      file, which is the last component of the screenshot's path. */
  lemma HandlersAgree(w: World, e: EventKind, m: Member, c: Channel)
    requires CanCapture(w.files, m.id)
    requires '/' !in m.id
    ensures var w' := Run(w, e, m, Some(c)).0;
      |w'.outbox| == |w.outbox| + 1 &&
      var d := w'.outbox[|w.outbox|];
      (d.notification.color == Notify.Green <==> e == Join) &&
      (d.notification.color == Notify.Red <==> e == Leave) &&
      Card.SubMessageOf(Card.CardTemplate, d.card)
        == Some(if e == Join then CardText.WelcomeText else CardText.FarewellText) &&
      d.notification.imageRef == Notify.AttachmentScheme + Text.BaseName(d.attachmentPath)
  {
    RunDelivers(w, e, m, c);
    KindTestsAgree(KindText(e), m.user.username, m.id);
    Card.ComposeSubMessage(KindText(e), m.user.username, MemberAvatarUrl(m));
    Naming.ArtifactPathBaseName(m.id);
  }

  /** Every screenshot's folder exists as a directory. */
  ghost predicate ImagesConsistent(files: Files)
  {
    forall p :: p in files && Naming.InImagesDir(p) ==>
      Naming.ImagesDir in files && files[Naming.ImagesDir] == Dir
  }

  lemma RunKeepsImagesConsistent(w: World, e: EventKind, m: Member, channel: Option<Channel>)
    requires ImagesConsistent(w.files)
    ensures ImagesConsistent(Run(w, e, m, channel).0.files)
  {
  }

  /** The embed a join of member "123" named "Ann" posts. */
  lemma JoinNotification()
    ensures Notify.BuildNotification("Welcome", "Ann", "123") == Notify.Notification(
      Notify.JoinTitle, Notify.JoinGreeting + ", Ann!",
      "attachment://123.png", Notify.Green, "123.png")
  {
    assert Naming.ArtifactName("123") == "123.png";
  }

  /** A member "123" named "Ann" joins an empty world and the channel is
      found. */
  lemma JoinScenario(c: Channel)
    ensures var m := Member("123", User("123", "Ann", Some("abc")));
      var (w', o) := Run(World(map[], []), Join, m, Some(c));
      o == Sent && "images/123.png" !in w'.files && |w'.outbox| == 1 &&
      w'.outbox[0].notification == Notify.Notification(
        Notify.JoinTitle, Notify.JoinGreeting + ", Ann!",
        "attachment://123.png", Notify.Green, "123.png")
  {
    var m := Member("123", User("123", "Ann", Some("abc")));
    assert Naming.ArtifactName("123") == "123.png";
    assert Naming.ArtifactPath("123") == "images/123.png";
    JoinNotification();
    RunDelivers(World(map[], []), Join, m, c);
    var (w', o) := Run(World(map[], []), Join, m, Some(c));
    assert w'.outbox[0].notification == Notify.BuildNotification("Welcome", "Ann", "123");
  }

  /** Member "123" named "Ann", without an avatar, leaving while the
      channel cannot be found: nothing is posted and the screenshot stays on
      disk (the code has no cleanup on this path). */
  lemma MissingChannelScenario()
    ensures var m := Member("123", User("123", "Ann", None));
      var (w', o) := Run(World(map[], []), Leave, m, None);
      o == ChannelMissing && w'.outbox == [] && "images/123.png" in w'.files
  {
    var m := Member("123", User("123", "Ann", None));
    assert Naming.ArtifactPath("123") == "images/123.png";
    RunWithoutChannel(World(map[], []), Leave, m);
  }

  /** The bot's side effects: the filesystem and the messages it posted. */
  class Bot {
    var files: Files
    var outbox: seq<Delivery>

    ghost predicate Valid()
      reads this
    {
      ImagesConsistent(files)
    }

    function State(): World
      reads this
    {
      World(files, outbox)
    }

    constructor (initial: Files)
      requires ImagesConsistent(initial)
      ensures Valid() && files == initial && outbox == []
    {
      files, outbox := initial, [];
    }

    method EnsureImagesFolder()
      requires Valid()
      modifies this
      ensures Valid()
      ensures files == EnsureFolder(old(files), Naming.ImagesDir) && outbox == old(outbox)
    {
      if Naming.ImagesDir !in files {
        files := files[Naming.ImagesDir := Dir];
      }
    }

    /** Renders the card, creates the folder if absent and writes the
        screenshot to the member's path. */
    method CaptureScreenshot(kind: string, nick: string, avatarUrl: string, userId: string)
      returns (filePath: Option<string>)
      requires Valid()
      modifies this
      ensures Valid()
      ensures (files, filePath) == Capture(old(files), kind, nick, avatarUrl, userId)
      ensures outbox == old(outbox)
    {
      var html := Card.Compose(kind, nick, avatarUrl);
      EnsureImagesFolder();
      var path := Naming.ArtifactPath(userId);
      if files[Naming.ImagesDir] == Dir && !(path in files && files[path] == Dir) {
        files := files[path := Png(html)];
        filePath := Some(path);
      } else {
        filePath := None;
      }
    }

    /** Posts the notification with the screenshot attached, then deletes
        the screenshot; does nothing when the channel is missing. */
    method SendMessage(kind: string, member: Member, filePath: string, channel: Option<Channel>)
      returns (outcome: Outcome)
      requires Valid()
      modifies this
      ensures Valid()
      ensures (State(), outcome) == Send(old(State()), kind, member, filePath, channel)
    {
      if channel.Some? {
        if filePath in files && files[filePath].Png? {
          var embed := Notify.BuildNotification(kind, member.user.username, member.id);
          outbox := outbox + [Delivery(channel.value, embed, filePath, files[filePath].card)];
          files := files - {filePath};
          outcome := Sent;
        } else {
          outcome := AttachmentUnreadable;
        }
      } else {
        outcome := ChannelMissing;
      }
    }

    /** The join handler. */
    method OnGuildMemberAdd(member: Member, channel: Option<Channel>) returns (outcome: Outcome)
      requires Valid()
      modifies this
      ensures Valid()
      ensures (State(), outcome) == Run(old(State()), Join, member, channel)
    {
      RunKeepsImagesConsistent(State(), Join, member, channel);
      var avatarUrl := Naming.AvatarUrl(member.user.id, member.user.avatar);
      var filePath := CaptureScreenshot("Welcome", member.user.username, avatarUrl, member.id);
      match filePath
      case None => outcome := CaptureFailed;
      case Some(p) => outcome := SendMessage("Welcome", member, p, channel);
    }

    /** The leave handler. */
    method OnGuildMemberRemove(member: Member, channel: Option<Channel>) returns (outcome: Outcome)
      requires Valid()
      modifies this
      ensures Valid()
      ensures (State(), outcome) == Run(old(State()), Leave, member, channel)
    {
      RunKeepsImagesConsistent(State(), Leave, member, channel);
      var avatarUrl := Naming.AvatarUrl(member.user.id, member.user.avatar);
      var filePath := CaptureScreenshot("Bye", member.user.username, avatarUrl, member.id);
      match filePath
      case None => outcome := CaptureFailed;
      case Some(p) => outcome := SendMessage("Bye", member, p, channel);
    }
  }
}
