/** The strings the bot derives from a member's identity: the avatar URL
    the card shows, and the name and path of the transient screenshot. */
module Naming {
  import opened Wrappers
  import Text

  const AvatarCdn := "https://cdn.discordapp.com/avatars/"
  const AvatarSuffix := ".png?size=512"
  /** The screenshot folder, relative to the bot's own directory. */
  const ImagesDir := "images"
  const PngExtension := ".png"

  /** An avatar hash as a JavaScript template literal prints it: a member
      without a custom avatar has a null hash, which prints as "null". */
  function HashText(avatar: Option<string>): string
  {
    match avatar
    case Some(h) => h
    case None => "null"
  }

  /** The CDN address of a user's avatar, built the same way by both the
      join and the leave handler. */
  function AvatarUrl(userId: string, avatar: Option<string>): (r: string)
    ensures |r| >= |AvatarCdn| + |AvatarSuffix|
    ensures r[..|AvatarCdn|] == AvatarCdn && r[|r| - |AvatarSuffix|..] == AvatarSuffix
  {
    AvatarCdn + userId + "/" + HashText(avatar) + AvatarSuffix
  }

  /** Reads a user id and an avatar hash back out of a CDN avatar address. */
  function ParseAvatarUrl(url: string): (r: Option<(string, string)>)
    ensures r.Some? ==>
      '/' !in r.value.0 && url == AvatarCdn + r.value.0 + "/" + r.value.1 + AvatarSuffix
  {
    if |url| < |AvatarCdn| + |AvatarSuffix| then None
    else if url[..|AvatarCdn|] != AvatarCdn then None
    else if url[|url| - |AvatarSuffix|..] != AvatarSuffix then None
    else
      var body := url[|AvatarCdn|..|url| - |AvatarSuffix|];
      var uid := Text.TakeUntil(body, '/');
      if |uid| == |body| then None else Some((uid, body[|uid| + 1..]))
  }

  /** For a user id without slashes (the platform's ids are decimal), the
      avatar address gives back exactly the id and the hash it was built from. */
  lemma AvatarUrlRoundTrip(userId: string, avatar: Option<string>)
    requires '/' !in userId
    ensures ParseAvatarUrl(AvatarUrl(userId, avatar)) == Some((userId, HashText(avatar)))
  {
    var h := HashText(avatar);
    var url := AvatarUrl(userId, avatar);
    var body := url[|AvatarCdn|..|url| - |AvatarSuffix|];
    assert body == userId + ("/" + h);
    Text.TakeUntilConcat(userId, "/" + h, '/');
    assert body[|userId| + 1..] == h;
  }

  /** Distinct users, or distinct hashes, never share an avatar address. */
  lemma AvatarUrlInjective(u1: string, a1: Option<string>, u2: string, a2: Option<string>)
    requires '/' !in u1 && '/' !in u2
    requires AvatarUrl(u1, a1) == AvatarUrl(u2, a2)
    ensures u1 == u2 && HashText(a1) == HashText(a2)
  {
    AvatarUrlRoundTrip(u1, a1);
    AvatarUrlRoundTrip(u2, a2);
  }

  /** The file name of a member's screenshot; also the attachment's name. */
  function ArtifactName(memberId: string): (r: string)
    ensures |r| == |memberId| + |PngExtension|
    ensures r[..|memberId|] == memberId && r[|memberId|..] == PngExtension
  {
    memberId + PngExtension
  }

  /** Where a member's screenshot is written. */
  function ArtifactPath(memberId: string): (r: string)
    ensures InImagesDir(r) && r[|ImagesDir| + 1..] == ArtifactName(memberId)
  {
    ImagesDir + "/" + ArtifactName(memberId)
  }

  /** The attachment's file name is the last component of the written path. */
  lemma ArtifactPathBaseName(memberId: string)
    requires '/' !in memberId
    ensures Text.BaseName(ArtifactPath(memberId)) == ArtifactName(memberId)
  {
    assert '/' !in ArtifactName(memberId);
    assert ArtifactPath(memberId) == ImagesDir + ['/'] + ArtifactName(memberId);
    Text.AfterLastConcat(ImagesDir, '/', ArtifactName(memberId));
  }

  /** Every screenshot lies directly inside the images folder. */
  predicate InImagesDir(p: string)
  {
    |p| > |ImagesDir| + 1 && p[..|ImagesDir| + 1] == ImagesDir + "/"
  }

  /** Screenshot paths live under the images folder, and two members share a
      path exactly when they share an id (the key is the id and nothing else,
      so two runs for the same member write to one file). */
  lemma ArtifactPathKey(a: string, b: string)
    ensures InImagesDir(ArtifactPath(a)) && !InImagesDir(ImagesDir)
    ensures ArtifactPath(a) == ArtifactPath(b) <==> a == b
  {
    if ArtifactPath(a) == ArtifactPath(b) {
      var n := |ImagesDir| + 1;
      assert |a| == |b|;
      assert a == ArtifactPath(a)[n..n + |a|];
      assert b == ArtifactPath(b)[n..n + |b|];
    }
  }
}
