/** `post create` (src/commands/post/create.ts): the post text, the company
    page and the attachments, each attachment parsed from `url:type[:name]`,
    then the `createPost` workflow. */
module PostCreate {

  import opened Wrappers
  import Text
  import opened Json
  import opened Params
  import Process
  import ConfigStore
  import AuthManager
  import LinkedApi
  import opened BaseCommand
  import WorkflowRunner

  /** The text argument and the command's own flags; an absent
      `--attachments` is the empty list, which the command treats alike. */
  datatype CreateFlags = CreateFlags(text: string, companyUrl: Option<string>, attachments: seq<string>)

  const Operation := "createPost"

  /** The attachment types. */
  const Types: seq<string> := ["image", "video", "document"]

  /** A parsed attachment: the URL, the type and the optional name. */
  datatype Attachment = Attachment(url: string, kind: string, name: Option<string>)

  function FormatError(att: string): string
  {
    "Invalid attachment format: \"" + att + "\". Expected url:type[:name]"
  }

  function TypeError(att: string): string
  {
    "Invalid attachment type in \"" + att + "\". Must be one of: image, video, document"
  }

  /** What the parser can produce: a known type, and a name (when there is one)
      without `:` that is not itself a type. */
  predicate WellFormed(a: Attachment)
  {
    a.kind in Types && (a.name.Some? ==> ':' !in a.name.value && a.name.value !in Types)
  }

  /** The text an attachment is written as. */
  function Unparse(a: Attachment): string
  {
    a.url + ":" + a.kind + (if a.name.Some? then ":" + a.name.value else "")
  }

  lemma TypesHaveNoColon()
    ensures forall t :: t in Types ==> ':' !in t
  {
    assert Types == ["image", "video", "document"];
  }

  /** The parser of one attachment: split on `:`; a last piece that is a type
      gives the type and leaves the rest rejoined as the URL; otherwise a
      second-to-last piece that is a type gives the type, the last piece is
      the name and the rest is the URL. */
  function ParseAttachment(att: string): (r: Result<Attachment, string>)
    ensures r.Err? ==> r.error == FormatError(att) || r.error == TypeError(att)
    ensures r.Ok? ==> WellFormed(r.value)
  {
    var parts := Text.Split(att, ':');
    Text.SplitPiecesWithoutSeparator(att, ':');
    var n := |parts|;
    if n < 2 then Err(FormatError(att))
    else if parts[n - 1] in Types then
      Ok(Attachment(Text.Join(parts[..n - 1], ":"), parts[n - 1], None))
    else if n > 2 && parts[n - 2] != [] && parts[n - 2] in Types then
      Ok(Attachment(Text.Join(parts[..n - 2], ":"), parts[n - 2], Some(parts[n - 1])))
    else
      Err(TypeError(att))
  }

  /** Text without any `:` is rejected as malformed. */
  lemma ParseWithoutColon(att: string)
    requires ':' !in att
    ensures ParseAttachment(att) == Err(FormatError(att))
  {
    Text.CountZero(att, ':');
  }

  /** Whatever parses is the text of the attachment it parses to. */
  lemma ParsedUnparses(att: string)
    requires ParseAttachment(att).Ok?
    ensures Unparse(ParseAttachment(att).value) == att
  {
    var parts := Text.Split(att, ':');
    var n := |parts|;
    Text.JoinSplit(att, ':');
    assert parts == parts[..n - 1] + [parts[n - 1]];
    Text.JoinSnoc(parts[..n - 1], parts[n - 1], ":");
    if parts[n - 1] !in Types {
      assert parts[..n - 1] == parts[..n - 2] + [parts[n - 2]];
      Text.JoinSnoc(parts[..n - 2], parts[n - 2], ":");
    }
  }

  /** A URL and a type, split apart again. */
  lemma SplitTyped(url: string, kind: string)
    requires kind in Types
    ensures Text.Split(url + ":" + kind, ':') == Text.Split(url, ':') + [kind]
  {
    TypesHaveNoColon();
    Text.SplitWithoutSeparator(kind, ':');
    Text.SplitConcat(url, ':', kind);
  }

  /** `url:type` parses to that URL and type, whatever `:` the URL holds
      (`https://...`). */
  lemma ParseTyped(url: string, kind: string)
    requires kind in Types
    ensures ParseAttachment(url + ":" + kind) == Ok(Attachment(url, kind, None))
  {
    SplitTyped(url, kind);
    Text.JoinSplit(url, ':');
    var p := Text.Split(url, ':');
    assert (p + [kind])[..|p|] == p;
  }

  /** `url:type:name` parses to that URL, type and name, for a name without `:`
      that is not a type. */
  lemma ParseNamed(url: string, kind: string, name: string)
    requires kind in Types && ':' !in name && name !in Types
    ensures ParseAttachment(url + ":" + kind + ":" + name) == Ok(Attachment(url, kind, Some(name)))
  {
    var head := url + ":" + kind;
    var p := Text.Split(url, ':');
    var parts := p + [kind] + [name];
    assert Text.Split(url + ":" + kind + ":" + name, ':') == parts by {
      SplitTyped(url, kind);
      Text.SplitWithoutSeparator(name, ':');
      Text.SplitConcat(head, ':', name);
      assert url + ":" + kind + ":" + name == head + [':'] + name;
    }
    assert parts[|parts| - 1] == name && parts[|parts| - 2] == kind;
    assert parts[..|parts| - 2] == p;
    Text.JoinSplit(url, ':');
  }

  /** Every well-formed attachment parses back from its text. */
  lemma ParseUnparse(a: Attachment)
    requires WellFormed(a)
    ensures ParseAttachment(Unparse(a)) == Ok(a)
  {
    if a.name.None? {
      assert Unparse(a) == a.url + ":" + a.kind;
      ParseTyped(a.url, a.kind);
    } else {
      assert a == Attachment(a.url, a.kind, Some(a.name.value));
      assert Unparse(a) == a.url + ":" + a.kind + ":" + a.name.value;
      ParseNamed(a.url, a.kind, a.name.value);
    }
  }

  /** The record of one attachment: `url` and `type`, and `name` when truthy. */
  function AttachmentRecord(a: Attachment): (v: Value)
    ensures v.JObj?
    ensures Lookup(v.members, "url") == Some(JStr(a.url))
    ensures Lookup(v.members, "type") == Some(JStr(a.kind))
    ensures Lookup(v.members, "name") == TextParam(a.name)
    ensures forall k :: k in Keys(v.members) ==> k in ["url", "type", "name"]
  {
    var base := [Member("url", JStr(a.url)), Member("type", JStr(a.kind))];
    if GivenText(a.name) then
      LookupAppend(base, Member("name", JStr(a.name.value)), "name");
      JObj(base + [Member("name", JStr(a.name.value))])
    else JObj(base)
  }

  /** The `map` over the attachments: one record per attachment, in order, or
      the error of the first one that does not parse. */
  function ParseAll(atts: seq<string>): (r: Result<seq<Value>, string>)
    ensures r.Ok? ==> |r.value| == |atts|
  {
    if atts == [] then Ok([])
    else
      var first := ParseAttachment(atts[0]);
      if first.Err? then Err(first.error)
      else
        var rest := ParseAll(atts[1..]);
        if rest.Err? then rest else Ok([AttachmentRecord(first.value)] + rest.value)
  }

  /** When the attachments parse, each one does, and there is one record per
      attachment, in order. */
  lemma {:induction false} ParseAllRecords(atts: seq<string>)
    requires ParseAll(atts).Ok?
    ensures forall i :: 0 <= i < |atts| ==>
              ParseAttachment(atts[i]).Ok? && ParseAll(atts).value[i] == AttachmentRecord(ParseAttachment(atts[i]).value)
  {
    if atts != [] {
      var first := ParseAttachment(atts[0]);
      var rest := atts[1..];
      assert first.Ok? && ParseAll(rest).Ok?;
      ParseAllRecords(rest);
      assert ParseAll(atts).value == [AttachmentRecord(first.value)] + ParseAll(rest).value;
      forall i | 0 <= i < |atts|
        ensures ParseAttachment(atts[i]).Ok? && ParseAll(atts).value[i] == AttachmentRecord(ParseAttachment(atts[i]).value)
      {
        if i > 0 {
          assert atts[i] == rest[i - 1];
        }
      }
    }
  }

  /** A failure is the error of some attachment all of whose predecessors
      parse; with the lemma above, the attachments parse exactly when each
      one does. */
  lemma {:induction false} ParseAllErr(atts: seq<string>) returns (i: nat)
    requires ParseAll(atts).Err?
    ensures i < |atts| && ParseAttachment(atts[i]) == Err(ParseAll(atts).error)
    ensures forall j :: 0 <= j < i ==> ParseAttachment(atts[j]).Ok?
  {
    if ParseAttachment(atts[0]).Err? {
      i := 0;
    } else {
      var k := ParseAllErr(atts[1..]);
      i := k + 1;
      assert atts[i] == atts[1..][k];
      forall j | 0 <= j < i
        ensures ParseAttachment(atts[j]).Ok?
      {
        if j > 0 { assert atts[j] == atts[1..][j - 1]; }
      }
    }
  }

  /** The assignments to `params`, starting from the text: the attachments,
      when there are any, are the parsed records. */
  function ParamEntries(f: CreateFlags, attachments: seq<Value>): seq<Entry>
  {
    [Entry("text", Some(JStr(f.text))),
     Entry("companyUrl", TextParam(f.companyUrl)),
     Entry("attachments", if |f.attachments| > 0 then Some(JArr(attachments)) else None)]
  }

  /** The parameters the workflow receives, or the message of the attachment
      error that ends the command first. */
  function CreateParams(f: CreateFlags): Result<Value, string>
  {
    var parsed := ParseAll(f.attachments);
    if parsed.Err? then Err(parsed.error) else Ok(JObj(Record(ParamEntries(f, parsed.value))))
  }

  /** When the attachments parse, the text is always sent, the company URL when
      truthy, and one record per attachment exactly when there are any. */
  lemma ParamsSent(f: CreateFlags)
    requires CreateParams(f).Ok?
    ensures var p := CreateParams(f).value.members;
            Lookup(p, "text") == Some(JStr(f.text)) &&
            Lookup(p, "companyUrl") == TextParam(f.companyUrl) &&
            (Lookup(p, "attachments").Some? <==> |f.attachments| > 0) &&
            (|f.attachments| > 0 ==> Lookup(p, "attachments") == Some(JArr(ParseAll(f.attachments).value)))
  {
    var es := ParamEntries(f, ParseAll(f.attachments).value);
    assert es[0].key == "text" && es[1].key == "companyUrl" && es[2].key == "attachments";
    RecordLookup(es, 0);
    RecordLookup(es, 1);
    RecordLookup(es, 2);
  }

  /** The parameter construction of `run`, or the attachment error it throws. */
  method BuildParams(f: CreateFlags) returns (params: Result<Value, string>)
    ensures params == CreateParams(f)
  {
    var parsed := ParseAll(f.attachments);
    if |f.attachments| > 0 && parsed.Err? {
      return Err(parsed.error);
    }
    var ps := AssignParams(f, if parsed.Ok? then parsed.value else []);
    params := Ok(JObj(ps));
  }

  /** The assignments to `params` once the attachments are parsed, in source
      order. */
  method AssignParams(f: CreateFlags, attachments: seq<Value>) returns (ps: seq<Member>)
    ensures ps == Record(ParamEntries(f, attachments))
  {
    ghost var es := ParamEntries(f, attachments);
    ps := [Member("text", JStr(f.text))];
    assert ps == Built(es, 1);
    if GivenText(f.companyUrl) { ps := ps + [Member("companyUrl", JStr(f.companyUrl.value))]; }
    assert ps == Built(es, 2);
    if |f.attachments| > 0 {
      ps := ps + [Member("attachments", JArr(attachments))];
    }
    assert ps == Built(es, 3);
  }

  /** `post create`: after authentication, an attachment error escapes `run`
      (its message is `escaped`, reported by the command-line framework) with
      no call made; otherwise the workflow runs with the parameters above. */
  method Run(store: ConfigStore.Store, service: LinkedApi.Service, console: Process.Console, flags: BaseFlags,
             f: CreateFlags) returns (escaped: Option<string>)
    requires service.Valid() && console.Open()
    modifies store, service, console
    ensures service.Valid()
    ensures store.disk == ConfigStore.Rewritten(old(store.disk))
    ensures var auth := AuthManager.Resolve(ConfigStore.Load(old(store.disk)), flags.account);
            auth.Err? ==> escaped == None && Unauthenticated(service, console, auth.error)
    ensures var auth := AuthManager.Resolve(ConfigStore.Load(old(store.disk)), flags.account);
            auth.Ok? && CreateParams(f).Err? ==>
              escaped == Some(CreateParams(f).error) &&
              service.trace == old(service.trace) && console.Open() &&
              console.stdout == old(console.stdout) && console.stderr == old(console.stderr)
    ensures var auth := AuthManager.Resolve(ConfigStore.Load(old(store.disk)), flags.account);
            auth.Ok? && CreateParams(f).Ok? ==>
              escaped == None &&
              WorkflowRunner.RanWorkflow(service, console, auth.value, Operation, CreateParams(f).value, flags)
  {
    escaped := None;
    var client := BuildAuthenticatedClient(store, console, flags);
    if client.None? {
      return;
    }
    var params := BuildParams(f);
    if params.Err? {
      return Some(params.error);
    }
    WorkflowRunner.RunAndFormat(service, console, client.value, Operation, params.value, flags);
  }
}
