/** The card markup: one fixed document with three slots (the avatar
    address, the heading and the sub-message) filled in verbatim, with no
    escaping. */
module Card {
  import opened Wrappers
  import Text
  import opened CardText

  /** The fixed parts of a card template, around its three slots. */
  datatype Template = Template(prefix: string, avatarClose: string, headingClose: string, suffix: string)

  /** The bot's one template. */
  const CardTemplate := Template(Prefix, AvatarClose, HeadingClose, Suffix)

  /** The fixed text after each slot starts with the character that ends
      that slot for a markup reader: '"' after the image source, '<' after
      the heading and after the sub-message; and the text before the
      sub-message ends with the '>' that closes its tag. */
  predicate WellFormed(t: Template)
  {
    |t.avatarClose| > 0 && t.avatarClose[0] == '"' &&
    |t.headingClose| > 0 && t.headingClose[0] == '<' &&
    t.headingClose[|t.headingClose| - 1] == '>' &&
    |t.suffix| > 0 && t.suffix[0] == '<'
  }

  lemma CardTemplateWellFormed()
    ensures WellFormed(CardTemplate)
  {
  }

  /** A template with its slots filled in, verbatim. */
  function Fill(t: Template, src: string, heading: string, sub: string): string
  {
    t.prefix + (src + (t.avatarClose + (heading + (t.headingClose + (sub + t.suffix)))))
  }

  /** The sub-message is chosen by one test: the farewell text exactly for
      the kind "Bye", the welcome text for every other kind, whatever string
      it is (the kind is never validated). */
  function SubMessage(kind: string): (r: string)
    ensures r == FarewellText <==> kind == "Bye"
    ensures r == WelcomeText <==> kind != "Bye"
  {
    if kind == "Bye" then FarewellText else WelcomeText
  }

  /** Text with no markup brackets. */
  predicate Plain(s: string)
  {
    forall i :: 0 <= i < |s| ==> s[i] != '<' && s[i] != '>'
  }

  lemma PlainConcat(a: string, b: string)
    requires Plain(a) && Plain(b)
    ensures Plain(a + b)
  {
  }

  /** Neither sub-message contains markup. */
  lemma SubMessagePlain(kind: string)
    ensures '<' !in SubMessage(kind) && '>' !in SubMessage(kind)
  {
    PlainConcat("It is a pity that ", "you are leaving us. ");
    PlainConcat("It is a pity that " + "you are leaving us. ", "We hope you will come ");
    PlainConcat("It is a pity that " + "you are leaving us. " + "We hope you will come ", "back to us again someday.");
    PlainConcat("We are happy to ", "welcome you! ");
    PlainConcat("We are happy to " + "welcome you! ", "Enjoy your time with us.");
    assert Plain(SubMessage(kind));
  }

  /** The card document for one event: the avatar address as the image
      source, "<kind>, <nick>" as the heading, the kind's sub-message, each
      spliced in unescaped. */
  function Compose(kind: string, nick: string, avatarUrl: string): string
  {
    Fill(CardTemplate, avatarUrl, kind + HeadingSeparator + nick, SubMessage(kind))
  }

  /** The three variable parts of a card, as a reader of the markup sees them. */
  datatype CardFields = CardFields(avatarSrc: string, heading: string, subMessage: string)

  /** Reads a document laid out on template `t`: the image source runs to
      the next '"', the heading and the sub-message each to the next '<',
      and the fixed text must match around them. */
  function ParseCard(t: Template, doc: string): Option<CardFields>
  {
    match Text.Expect(t.prefix, doc)
    case None => None
    case Some(r0) =>
      var (src, r1) := Text.SplitAt(r0, '"');
      match Text.Expect(t.avatarClose, r1)
      case None => None
      case Some(r2) =>
        var (heading, r3) := Text.SplitAt(r2, '<');
        match Text.Expect(t.headingClose, r3)
        case None => None
        case Some(r4) =>
          var (sub, r5) := Text.SplitAt(r4, '<');
          if r5 == t.suffix then Some(CardFields(src, heading, sub)) else None
  }

  /** When no slot holds the character that ends it, the reader gives back
      exactly what was filled in. */
  lemma ParseFillRoundTrip(t: Template, src: string, heading: string, sub: string)
    requires WellFormed(t)
    requires '"' !in src && '<' !in heading && '<' !in sub
    ensures ParseCard(t, Fill(t, src, heading, sub)) == Some(CardFields(src, heading, sub))
  {
    var r4 := sub + t.suffix;
    var r2 := heading + (t.headingClose + r4);
    var r0 := src + (t.avatarClose + r2);
    Text.ExpectConcat(t.prefix, r0);
    Text.SplitAtConcat(src, t.avatarClose + r2, '"');
    Text.ExpectConcat(t.avatarClose, r2);
    Text.SplitAtConcat(heading, t.headingClose + r4, '<');
    Text.ExpectConcat(t.headingClose, r4);
    Text.SplitAtConcat(sub, t.suffix, '<');
  }

  /** Whatever the reader accepts is the template filled with what it read. */
  lemma ParseCardSound(t: Template, doc: string, f: CardFields)
    requires ParseCard(t, doc) == Some(f)
    ensures doc == Fill(t, f.avatarSrc, f.heading, f.subMessage)
  {
  }

  /** The bot's card reads back as its avatar address, exactly
      "<kind>, <nick>" and the kind's sub-message, provided the address has
      no '"' and the kind and the nick have no '<'. */
  lemma ComposeRoundTrip(kind: string, nick: string, avatarUrl: string)
    requires '"' !in avatarUrl && '<' !in kind && '<' !in nick
    ensures ParseCard(CardTemplate, Compose(kind, nick, avatarUrl))
         == Some(CardFields(avatarUrl, kind + HeadingSeparator + nick, SubMessage(kind)))
  {
    CardTemplateWellFormed();
    SubMessagePlain(kind);
    ParseFillRoundTrip(CardTemplate, avatarUrl, kind + HeadingSeparator + nick, SubMessage(kind));
  }

  /** The image source a markup reader sees: the text after the fixed prefix
      up to the first '"'. */
  function ImageSource(t: Template, doc: string): Option<string>
  {
    match Text.Expect(t.prefix, doc)
    case None => None
    case Some(rest) => Some(Text.SplitAt(rest, '"').0)
  }

  /** The source slot follows the prefix verbatim, and a reader takes as
      the image source the slot up to its first '"': the whole slot exactly
      when it has no '"', since nothing is escaped. */
  lemma FillImageSource(t: Template, src: string, heading: string, sub: string)
    requires WellFormed(t)
    ensures var rest := Text.Expect(t.prefix, Fill(t, src, heading, sub));
      rest.Some? && src <= rest.value
    ensures ImageSource(t, Fill(t, src, heading, sub)) == Some(Text.TakeUntil(src, '"'))
    ensures ImageSource(t, Fill(t, src, heading, sub)) == Some(src) <==> '"' !in src
  {
    var r1 := t.avatarClose + (heading + (t.headingClose + (sub + t.suffix)));
    Text.ExpectConcat(t.prefix, src + r1);
    Text.TakeUntilConcat(src, r1, '"');
  }

  /** The heading a reader sees: after the image source and the fixed text
      that follows it, the text up to the next '<'. */
  function HeadingOf(t: Template, doc: string): Option<string>
  {
    match Text.Expect(t.prefix, doc)
    case None => None
    case Some(r0) =>
      var (src, r1) := Text.SplitAt(r0, '"');
      match Text.Expect(t.avatarClose, r1)
      case None => None
      case Some(r2) => Some(Text.TakeUntil(r2, '<'))
  }

  /** When the image source has no '"', a reader takes as the heading the
      heading slot cut at its first '<': the whole slot exactly when it has
      no '<', since nothing is escaped. */
  lemma FillHeading(t: Template, src: string, heading: string, sub: string)
    requires WellFormed(t)
    requires '"' !in src
    ensures HeadingOf(t, Fill(t, src, heading, sub)) == Some(Text.TakeUntil(heading, '<'))
    ensures HeadingOf(t, Fill(t, src, heading, sub)) == Some(heading) <==> '<' !in heading
  {
    var r3 := t.headingClose + (sub + t.suffix);
    var r1 := t.avatarClose + (heading + r3);
    Text.ExpectConcat(t.prefix, src + r1);
    Text.SplitAtConcat(src, r1, '"');
    Text.ExpectConcat(t.avatarClose, heading + r3);
    Text.TakeUntilConcat(heading, r3, '<');
  }

  /** The sub-message slot as a reader scanning back from the end finds it:
      after the fixed closing text (which starts with "</div>") is removed,
      the text after the last '>'. What a browser renders can differ, since
      markup in an earlier slot is not escaped. */
  function SubMessageOf(t: Template, doc: string): Option<string>
  {
    if |t.suffix| <= |doc| && doc[|doc| - |t.suffix|..] == t.suffix
    then Some(Text.AfterLast(doc[..|doc| - |t.suffix|], '>'))
    else None
  }

  /** Whatever the image source and the heading hold, even markup, a
      markup-free sub-message is read back from the end of the card. */
  lemma {:induction false} FillSubMessage(t: Template, src: string, heading: string, sub: string)
    requires WellFormed(t)
    requires '>' !in sub
    ensures SubMessageOf(t, Fill(t, src, heading, sub)) == Some(sub)
  {
    var hc := t.headingClose;
    var x := t.prefix + src + t.avatarClose + heading + hc[..|hc| - 1];
    var doc := Fill(t, src, heading, sub);
    assert hc == hc[..|hc| - 1] + ['>'];
    assert doc == (x + ['>'] + sub) + t.suffix;
    assert doc[..|doc| - |t.suffix|] == x + ['>'] + sub;
    Text.AfterLastConcat(x, '>', sub);
  }

  /** The bot's card carries the avatar address verbatim right after the
      fixed prefix, and a reader sees as the image source the address cut
      at its first '"'. */
  lemma ComposeAvatarVerbatim(kind: string, nick: string, avatarUrl: string)
    ensures var rest := Text.Expect(CardTemplate.prefix, Compose(kind, nick, avatarUrl));
      rest.Some? && avatarUrl <= rest.value
    ensures ImageSource(CardTemplate, Compose(kind, nick, avatarUrl)) == Some(Text.TakeUntil(avatarUrl, '"'))
  {
    CardTemplateWellFormed();
    FillImageSource(CardTemplate, avatarUrl, kind + HeadingSeparator + nick, SubMessage(kind));
  }

  /** For any kind and nick, even ones holding markup, a reader takes as
      the heading "<kind>, <nick>" cut at its first '<' (all of it exactly
      when neither has a '<'), as long as the avatar address has no '"'. */
  lemma ComposeHeading(kind: string, nick: string, avatarUrl: string)
    requires '"' !in avatarUrl
    ensures HeadingOf(CardTemplate, Compose(kind, nick, avatarUrl))
         == Some(Text.TakeUntil(kind + HeadingSeparator + nick, '<'))
  {
    CardTemplateWellFormed();
    FillHeading(CardTemplate, avatarUrl, kind + HeadingSeparator + nick, SubMessage(kind));
  }

  /** For every kind, nick and avatar address, the text after the last '>'
      before the closing "</div>" is the sub-message the kind selects. */
  lemma ComposeSubMessage(kind: string, nick: string, avatarUrl: string)
    ensures SubMessageOf(CardTemplate, Compose(kind, nick, avatarUrl)) == Some(SubMessage(kind))
  {
    CardTemplateWellFormed();
    SubMessagePlain(kind);
    FillSubMessage(CardTemplate, avatarUrl, kind + HeadingSeparator + nick, SubMessage(kind));
  }
}
