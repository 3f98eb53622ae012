/** The webhook payload builders (src/webhook.rs). An `EmbedBuilder` holds one
    embed and each setter overwrites a field of it in place or appends to
    its field list; an `ExecutionBuilder` does the same for the payload that
    would be POSTed to the webhook's URL. JSON serialisation and the POST
    itself are not part of this model. */
module Webhook {
  import opened Types

  datatype EmbedFooter = EmbedFooter(text: string, iconUrl: Option<string>)
  datatype EmbedImage = EmbedImage(url: string)
  datatype EmbedThumbnail = EmbedThumbnail(url: string)
  datatype EmbedAuthor = EmbedAuthor(name: Option<string>, url: Option<string>, iconUrl: Option<string>)
  datatype EmbedField = EmbedField(name: string, value: string, inline: Option<bool>)

  datatype Embed = Embed(
    title: Option<string>,
    description: Option<string>,
    url: Option<string>,
    timestamp: Option<string>,
    color: Option<I32>,
    footer: Option<EmbedFooter>,
    image: Option<EmbedImage>,
    thumbnail: Option<EmbedThumbnail>,
    author: Option<EmbedAuthor>,
    fields: seq<EmbedField>)

  /** The body of a webhook execution. `embeds` holds the embeds by value:
      the source borrows them immutably, so they cannot change while held. */
  datatype ExecuteWebhook = ExecuteWebhook(
    content: Option<string>,
    username: Option<string>,
    avatarUrl: Option<string>,
    tts: Option<bool>,
    file: Option<string>,
    embeds: seq<Embed>)

  /** `Embed::default()`. */
  const EMPTY_EMBED: Embed := Embed(None, None, None, None, None, None, None, None, None, [])

  /** `ExecuteWebhook::default()`. */
  const EMPTY_PAYLOAD: ExecuteWebhook := ExecuteWebhook(None, None, None, None, None, [])

  class EmbedBuilder {
    var embed: Embed

    /** `EmbedBuilder::new`: every optional field unset, no fields. */
    constructor ()
      ensures embed == EMPTY_EMBED
      ensures embed.title.None? && embed.description.None? && embed.url.None?
      ensures embed.timestamp.None? && embed.color.None? && embed.footer.None?
      ensures embed.image.None? && embed.thumbnail.None? && embed.author.None?
      ensures embed.fields == []
    {
      embed := EMPTY_EMBED;
    }

    method Title(title: string)
      modifies this
      ensures embed == old(embed).(title := Some(title))
    {
      embed := embed.(title := Some(title));
    }

    method Description(description: string)
      modifies this
      ensures embed == old(embed).(description := Some(description))
    {
      embed := embed.(description := Some(description));
    }

    method Url(url: string)
      modifies this
      ensures embed == old(embed).(url := Some(url))
    {
      embed := embed.(url := Some(url));
    }

    method Timestamp(timestamp: string)
      modifies this
      ensures embed == old(embed).(timestamp := Some(timestamp))
    {
      embed := embed.(timestamp := Some(timestamp));
    }

    method Color(color: I32)
      modifies this
      ensures embed == old(embed).(color := Some(color))
    {
      embed := embed.(color := Some(color));
    }

    method Footer(text: string, iconUrl: Option<string>)
      modifies this
      ensures embed == old(embed).(footer := Some(EmbedFooter(text, iconUrl)))
    {
      embed := embed.(footer := Some(EmbedFooter(text, iconUrl)));
    }

    method Image(url: string)
      modifies this
      ensures embed == old(embed).(image := Some(EmbedImage(url)))
    {
      embed := embed.(image := Some(EmbedImage(url)));
    }

    method Thumbnail(url: string)
      modifies this
      ensures embed == old(embed).(thumbnail := Some(EmbedThumbnail(url)))
    {
      embed := embed.(thumbnail := Some(EmbedThumbnail(url)));
    }

    method Author(name: Option<string>, url: Option<string>, iconUrl: Option<string>)
      modifies this
      ensures embed == old(embed).(author := Some(EmbedAuthor(name, url, iconUrl)))
    {
      embed := embed.(author := Some(EmbedAuthor(name, url, iconUrl)));
    }

    /** Appends one field after the existing ones. */
    method Field(name: string, value: string, inline: Option<bool>)
      modifies this
      ensures embed == old(embed).(fields := old(embed.fields) + [EmbedField(name, value, inline)])
      ensures |embed.fields| == |old(embed.fields)| + 1
      ensures embed.fields[..|old(embed.fields)|] == old(embed.fields)
    {
      embed := embed.(fields := embed.fields + [EmbedField(name, value, inline)]);
    }
  }

  /** The webhook client. The HTTP client it wraps is not modelled. */
  class Webhook {
    /** `Webhook::with_client`. */
    constructor WithClient()
    {
    }

    /** `Webhook::execute`: a builder for one execution against `url`, with
        the default (empty) payload. */
    method Execute(url: string) returns (b: ExecutionBuilder)
      ensures fresh(b)
      ensures b.webhook == this && b.url == url && b.payload == EMPTY_PAYLOAD
    {
      b := new ExecutionBuilder(this, url);
    }
  }

  class ExecutionBuilder {
    const webhook: Webhook
    const url: string
    var payload: ExecuteWebhook

    constructor (webhook: Webhook, url: string)
      ensures this.webhook == webhook && this.url == url && payload == EMPTY_PAYLOAD
    {
      this.webhook := webhook;
      this.url := url;
      payload := EMPTY_PAYLOAD;
    }

    method Content(content: string)
      modifies this
      ensures payload == old(payload).(content := Some(content))
    {
      payload := payload.(content := Some(content));
    }

    method Username(username: string)
      modifies this
      ensures payload == old(payload).(username := Some(username))
    {
      payload := payload.(username := Some(username));
    }

    method AvatarUrl(avatarUrl: string)
      modifies this
      ensures payload == old(payload).(avatarUrl := Some(avatarUrl))
    {
      payload := payload.(avatarUrl := Some(avatarUrl));
    }

    method Tts(tts: bool)
      modifies this
      ensures payload == old(payload).(tts := Some(tts))
    {
      payload := payload.(tts := Some(tts));
    }

    method File(file: string)
      modifies this
      ensures payload == old(payload).(file := Some(file))
    {
      payload := payload.(file := Some(file));
    }

    /** Appends the builder's current embed after the existing ones. */
    method AddEmbed(embed: EmbedBuilder)
      modifies this
      ensures payload == old(payload).(embeds := old(payload.embeds) + [embed.embed])
      ensures |payload.embeds| == |old(payload.embeds)| + 1
      ensures payload.embeds[..|old(payload.embeds)|] == old(payload.embeds)
    {
      payload := payload.(embeds := payload.embeds + [embed.embed]);
    }
  }

  /** Setters are last-write-wins: a second `title` call replaces the first. */
  method TitleTwice(b: EmbedBuilder, first: string, second: string)
    modifies b
    ensures b.embed == old(b.embed).(title := Some(second))
  {
    b.Title(first);
    b.Title(second);
  }

  /** Setters on different fields commute and touch nothing else: after
      `title` and `description`, every other field is as it was. */
  method TitleAndDescription(b: EmbedBuilder, title: string, description: string)
    modifies b
    ensures b.embed.title == Some(title) && b.embed.description == Some(description)
    ensures b.embed.(title := old(b.embed.title), description := old(b.embed.description)) == old(b.embed)
  {
    b.Description(description);
    b.Title(title);
  }
}
