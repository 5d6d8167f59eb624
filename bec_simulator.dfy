/**
 * The BEC simulator of `modules/bec_simulator.py`: template lookup and
 * personalisation, and the per-recipient tracking records it keeps.
 *
 * The `templates/bec` directory is a map from file name to entry; the SMTP
 * session (`SMTP_SSL`, `login`, `send_message`) is one outcome parameter. The
 * tracking dictionary is an object of its own because the simulator hands the
 * very same dictionary to the tracking server, which updates it in place.
 */
module BecSimulation {
  import opened Common
  import opened Text

  /**
   * An entry of the templates directory: a file with its text, a file that
   * exists but cannot be read as text, or a sub-directory.
   */
  datatype TemplateEntry = TemplateFile(content: string) | UnreadableFile | TemplateDirectory

  /**
   * A target dictionary's items in order, each value already passed through
   * `str`. A dictionary has distinct keys (`DistinctKeys`); the lookups below
   * take the first item with a key, which for distinct keys is the only one.
   */
  type Target = seq<(string, string)>

  /** The message `_create_message` builds: From, To, Subject and its HTML parts in order. */
  datatype BecMessage = BecMessage(from: Option<string>, to: string, subject: string, parts: seq<string>)

  /** Why `_create_message` raises: `ValueError`, `KeyError` on `target['email']`, or the template not being a readable file. */
  datatype BecError = InvalidTemplate | MissingEmail | UnreadableTemplate

  datatype Result<T> = Success(value: T) | Failure(error: BecError)

  /** One value of `tracking_data`; `opened` is `wasOpened` (`opened` is a Dafny keyword); `open_time` is absent until the tracking server sets it. */
  datatype TrackRecord = TrackRecord(
    sentTime: Timestamp,
    wasOpened: bool,
    replied: bool,
    forwarded: bool,
    attachmentsOpened: int,
    openTime: Option<Timestamp>)

  const DefaultBecSubject := "Urgent: Wire Transfer Required"
  const SecurityTestMarker := "[SECURITY TEST]"
  const HtmlSuffix := ".html"

  predicate DistinctKeys(target: Target) {
    forall i, j :: 0 <= i < j < |target| ==> target[i].0 != target[j].0
  }

  /** `target.get(key)`: the value of the first item with that key. */
  function Lookup(target: Target, key: string): (r: Option<string>)
    ensures r.Some? <==> exists i :: 0 <= i < |target| && target[i].0 == key
    ensures r.Some? ==> exists i :: 0 <= i < |target| && target[i] == (key, r.value) &&
                                    forall j :: 0 <= j < i ==> target[j].0 != key
  {
    if target == [] then None
    else if target[0].0 == key then Some(target[0].1)
    else
      var r := Lookup(target[1..], key);
      assert forall i :: 0 < i < |target| ==> target[i] == target[1..][i - 1];
      r
  }

  /** In a target with distinct keys, looking up an item's key yields that item's value. */
  lemma LookupDistinct(target: Target, i: int)
    requires DistinctKeys(target) && 0 <= i < |target|
    ensures Lookup(target, target[i].0) == Some(target[i].1)
  {
  }

  /** The record written after a successful send. */
  function FreshRecord(now: Timestamp): (r: TrackRecord)
    ensures !r.wasOpened && !r.replied && !r.forwarded && r.attachmentsOpened == 0 && r.openTime == None
    ensures r.sentTime == now
  {
    TrackRecord(now, false, false, false, 0, None)
  }

  /** The path of the tracking link for a recipient. */
  function TrackingPath(email: string): string {
    "/track/" + email
  }

  /** The hidden image appended to every BEC message. */
  function TrackingImage(email: string): string {
    "<img src='http://localhost:8000" + TrackingPath(email) + "' style='display:none;'>"
  }

  function TemplateFileName(template: string): string {
    template + HtmlSuffix
  }

  /** `_validate_template`: a file or directory named `<template>.html` exists. */
  predicate ValidateTemplate(templates: map<string, TemplateEntry>, template: string): (ok: bool)
    ensures ok && template != "" ==> exists f :: f in templates && IsHtmlName(f) && Stem(f) == template
    ensures template != "" && template != HtmlSuffix ==>
      ((exists f :: f in templates && IsHtmlName(f) && Stem(f) == template) ==> ok)
  {
    var f := TemplateFileName(template);
    assert f[|f| - |HtmlSuffix|..] == HtmlSuffix;
    if template == "" then f in templates
    else
      HtmlStems(templates, template);
      f in templates
  }

  /**
   * For a non-empty name, `template.html` has stem `template`, and it is the
   * only `*.html` name with that stem unless `template` is `.html` itself.
   */
  lemma HtmlStems(templates: map<string, TemplateEntry>, template: string)
    requires template != "" && IsHtmlName(TemplateFileName(template))
    ensures Stem(TemplateFileName(template)) == template
    ensures template != HtmlSuffix ==>
      forall f :: f in templates && IsHtmlName(f) && Stem(f) == template ==> f == TemplateFileName(template)
  {
    StemIs(TemplateFileName(template), template);
    forall f | f in templates && IsHtmlName(f) && Stem(f) == template && template != HtmlSuffix
      ensures f == TemplateFileName(template)
    {
      StemIs(f, template);
    }
  }

  /** The conditions under which `_create_message` returns a message. */
  predicate Creatable(templates: map<string, TemplateEntry>, template: string, target: Target) {
    ValidateTemplate(templates, template) && Lookup(target, "email").Some? &&
    templates[TemplateFileName(template)].TemplateFile?
  }

  /** Matches the glob `*.html`. */
  predicate IsHtmlName(f: string) {
    |f| >= |HtmlSuffix| && f[|f| - |HtmlSuffix|..] == HtmlSuffix
  }

  /** `Path(f).stem` for a name ending in `.html`: a name that is only `.html` has no suffix. */
  function Stem(f: string): string
    requires IsHtmlName(f)
  {
    if |f| > |HtmlSuffix| then f[..|f| - |HtmlSuffix|] else f
  }

  /** An entry `get_available_templates` lists: a readable `*.html` file holding the marker. */
  predicate Listed(templates: map<string, TemplateEntry>, f: string) {
    f in templates && IsHtmlName(f) && templates[f].TemplateFile? &&
    Contains(templates[f].content, SecurityTestMarker)
  }

  /** A `*.html` file on which `read_text` raises. */
  predicate Unreadable(templates: map<string, TemplateEntry>, f: string) {
    f in templates && IsHtmlName(f) && templates[f].UnreadableFile?
  }

  /**
   * How often `get_available_templates` lists the name `s`: once for a marked
   * `s.html`, and once more when `s` is `.html` and the file `.html` itself is
   * marked, because `Path(".html").stem` is `.html` too.
   */
  function Copies(templates: map<string, TemplateEntry>, s: string): nat {
    (if s != "" && Listed(templates, TemplateFileName(s)) then 1 else 0) +
    (if s == HtmlSuffix && Listed(templates, HtmlSuffix) then 1 else 0)
  }

  /**
   * The list comprehension of `get_available_templates` over the entries in
   * `listing` order: the stem of each marked file, and `read_text` raising on
   * an unreadable `*.html` file ends the whole call.
   */
  function ListedStems(templates: map<string, TemplateEntry>, listing: seq<string>): (r: Result<seq<string>>)
    ensures r.Failure? <==> exists i :: 0 <= i < |listing| && Unreadable(templates, listing[i])
  {
    if listing == [] then Success([])
    else if Unreadable(templates, listing[0]) then Failure(UnreadableTemplate)
    else
      var rest := ListedStems(templates, listing[1..]);
      assert forall i :: 0 < i < |listing| ==> listing[i] == listing[1..][i - 1];
      if rest.Failure? then rest
      else Success((if Listed(templates, listing[0]) then [Stem(listing[0])] else []) + rest.value)
  }

  /** The shared `tracking_data` dictionary. */
  class TrackingTable {
    var entries: map<string, TrackRecord>

    constructor ()
      ensures entries == map[]
    {
      entries := map[];
    }
  }

  class BecSimulator {
    /** The files of `templates/bec`. */
    var templates: map<string, TemplateEntry>
    /** `tracking_data`. */
    const tracking: TrackingTable

    constructor (templates: map<string, TemplateEntry>)
      ensures this.templates == templates && fresh(tracking) && tracking.entries == map[]
    {
      this.templates := templates;
      tracking := new TrackingTable();
    }

    /** `_create_message`: look the template up, fill in the headers, substitute every target item into the body. */
    method CreateMessage(template: string, target: Target, senderSpoof: Option<string>) returns (r: Result<BecMessage>)
      ensures r == Failure(InvalidTemplate) <==> !ValidateTemplate(templates, template)
      ensures ValidateTemplate(templates, template) && Lookup(target, "email").None? ==> r == Failure(MissingEmail)
      ensures (ValidateTemplate(templates, template) && Lookup(target, "email").Some? &&
               !templates[TemplateFileName(template)].TemplateFile?) ==> r == Failure(UnreadableTemplate)
      ensures r.Success? <==> Creatable(templates, template, target)
      ensures r.Success? ==>
        r.value.from == senderSpoof &&
        r.value.to == Lookup(target, "email").value &&
        r.value.subject == Lookup(target, "subject").GetOr(DefaultBecSubject) &&
        r.value.parts == [SubstituteAll(templates[TemplateFileName(template)].content, target)]
    {
      if !ValidateTemplate(templates, template) {
        return Failure(InvalidTemplate);
      }
      var to := Lookup(target, "email");
      if to.None? {
        return Failure(MissingEmail);
      }
      var subject := Lookup(target, "subject").GetOr(DefaultBecSubject);
      var entry := templates[TemplateFileName(template)];
      if !entry.TemplateFile? {
        return Failure(UnreadableTemplate);
      }
      var body := Substitute(entry.content, target);
      r := Success(BecMessage(senderSpoof, to.value, subject, [body]));
    }

    /**
     * `send_bec_email`: build the message and add the tracking image as a
     * second part; open the SMTP session and log in (`sessionOpens`); only
     * then hand the message over (`sent`), which the server accepts or not
     * (`accepted`); and only after that write a fresh tracking record for the
     * recipient.
     */
    method SendBecEmail(template: string, target: Target, senderSpoof: Option<string>,
                        sessionOpens: bool, accepted: bool, now: Timestamp)
      returns (ok: bool, sent: Option<BecMessage>)
      modifies tracking
      ensures ok <==> Creatable(templates, template, target) && sessionOpens && accepted
      ensures sent.Some? <==> Creatable(templates, template, target) && sessionOpens
      ensures sent.Some? ==>
        var to := Lookup(target, "email").value;
        sent.value == BecMessage(senderSpoof, to, Lookup(target, "subject").GetOr(DefaultBecSubject),
          [SubstituteAll(templates[TemplateFileName(template)].content, target), TrackingImage(to)])
      ensures ok ==> tracking.entries == old(tracking.entries)[Lookup(target, "email").value := FreshRecord(now)]
      ensures !ok ==> tracking.entries == old(tracking.entries)
    {
      var message := CreateMessage(template, target, senderSpoof);
      if message.Failure? {
        return false, None;
      }
      var withImage := message.value.(parts := message.value.parts + [TrackingImage(message.value.to)]);
      if !sessionOpens {
        return false, None;
      }
      sent := Some(withImage);
      if !accepted {
        return false, sent;
      }
      tracking.entries := tracking.entries[message.value.to := FreshRecord(now)];
      ok := true;
    }

    /** `get_tracking_data`. */
    function GetTrackingData(email: string): (r: Option<TrackRecord>)
      reads tracking
      ensures r.Some? <==> email in tracking.entries
      ensures r.Some? ==> r.value == tracking.entries[email]
    {
      if email in tracking.entries then Some(tracking.entries[email]) else None
    }

    /**
     * `get_available_templates`: the stems of the `*.html` files that hold
     * `[SECURITY TEST]`, listed in `listing` order, the order in which the
     * directory yields its entries. An unreadable `*.html` file makes it raise.
     */
    function GetAvailableTemplates(listing: seq<string>): (r: Result<seq<string>>)
      reads this
      requires forall i, j :: 0 <= i < j < |listing| ==> listing[i] != listing[j]
      requires forall f :: f in listing <==> f in templates
      ensures r.Failure? <==> exists f :: Unreadable(templates, f)
      ensures r.Success? ==> forall s :: multiset(r.value)[s] == Copies(templates, s)
      ensures r.Success? ==> forall s :: s in r.value ==>
        Listed(templates, TemplateFileName(s)) || (s == HtmlSuffix && Listed(templates, HtmlSuffix))
    {
      var r := ListedStems(templates, listing);
      if r.Success? then
        forall s
          ensures multiset(r.value)[s] == Copies(templates, s)
          ensures s in r.value ==>
            Listed(templates, TemplateFileName(s)) || (s == HtmlSuffix && Listed(templates, HtmlSuffix))
        {
          ListedStemsCount(templates, listing, s);
        }
        r
      else r
    }
  }

  /** The stem of a `*.html` name, with `.html` put back, is the name again (except for the name `.html` itself). */
  lemma StemRoundTrip(f: string)
    requires IsHtmlName(f)
    ensures |f| > |HtmlSuffix| ==> TemplateFileName(Stem(f)) == f
    ensures |f| == |HtmlSuffix| ==> f == HtmlSuffix
  {
    if |f| > |HtmlSuffix| {
      assert f == f[..|f| - |HtmlSuffix|] + f[|f| - |HtmlSuffix|..];
    } else {
      assert f == f[|f| - |HtmlSuffix|..];
    }
  }

  /** The `*.html` names whose stem is `s`: `s.html` for a non-empty `s`, and the name `.html` when `s` is `.html`. */
  lemma StemIs(f: string, s: string)
    requires IsHtmlName(f)
    ensures Stem(f) == s <==> (s != "" && f == TemplateFileName(s)) || (s == HtmlSuffix && f == HtmlSuffix)
  {
    StemRoundTrip(f);
    if |f| > |HtmlSuffix| && s != "" && f == TemplateFileName(s) {
      assert f[..|f| - |HtmlSuffix|] == s;
    }
  }

  /**
   * Every name `get_available_templates` lists passes `_validate_template`,
   * except `.html` when it comes only from a marked file named `.html`: that
   * file's stem is `.html`, but validation looks for `.html.html`.
   */
  lemma ListedNamesValidate(templates: map<string, TemplateEntry>, s: string)
    requires Copies(templates, s) > 0
    ensures s != HtmlSuffix ==> ValidateTemplate(templates, s)
    ensures var only := map[HtmlSuffix := TemplateFile(SecurityTestMarker)];
      Copies(only, HtmlSuffix) == 1 && !ValidateTemplate(only, HtmlSuffix)
  {
    var only := map[HtmlSuffix := TemplateFile(SecurityTestMarker)];
    assert StartsWith(SecurityTestMarker, SecurityTestMarker);
    assert TemplateFileName(HtmlSuffix) != HtmlSuffix;
    assert Listed(only, HtmlSuffix);
  }

  /** Over a listing without repeats, each name appears as often as `Copies` says, counting only listed entries. */
  lemma {:induction false} ListedStemsCount(templates: map<string, TemplateEntry>, listing: seq<string>, s: string)
    requires forall i, j :: 0 <= i < j < |listing| ==> listing[i] != listing[j]
    requires ListedStems(templates, listing).Success?
    ensures multiset(ListedStems(templates, listing).value)[s] ==
      (if s != "" && TemplateFileName(s) in listing && Listed(templates, TemplateFileName(s)) then 1 else 0) +
      (if s == HtmlSuffix && HtmlSuffix in listing && Listed(templates, HtmlSuffix) then 1 else 0)
  {
    if listing != [] {
      var f, tail := listing[0], listing[1..];
      assert forall i :: 0 < i < |listing| ==> listing[i] == tail[i - 1];
      ListedStemsCount(templates, tail, s);
      assert f !in tail;
      assert forall g :: g in listing <==> g == f || g in tail;
      if Listed(templates, f) {
        StemIs(f, s);
      }
    }
  }

  /**
   * The send `test_send_bec_email` intends: the template `test_template` is
   * in the simulator's own directory, the target has an email and no
   * subject, so the message is built with the default subject and, with a
   * working transport, the send succeeds.
   */
  lemma SendBecEmailTest(templates: map<string, TemplateEntry>)
    requires templates == map["test_template.html" := TemplateFile("<html>Test template {{target_name}} {{amount}} {{account}}</html>")]
    ensures var target := [("email", "target@example.com"), ("name", "John Doe"), ("amount", "$10,000"), ("account", "1234-5678")];
      Creatable(templates, "test_template", target) &&
      Lookup(target, "email") == Some("target@example.com") &&
      Lookup(target, "subject") == None
  {
    assert TemplateFileName("test_template") == "test_template.html";
  }

  /**
   * `test_send_bec_email` as written: the template is written under
   * `tests/bec_test/templates/bec`, but the simulator reads `templates/bec`,
   * where no `test_template.html` exists, so `_create_message` raises
   * `ValueError` and `send_bec_email` returns False.
   */
  lemma SendBecEmailTestAsWritten(templates: map<string, TemplateEntry>)
    requires "test_template.html" !in templates
    ensures var target := [("email", "target@example.com"), ("name", "John Doe"), ("amount", "$10,000"), ("account", "1234-5678")];
      !ValidateTemplate(templates, "test_template") && !Creatable(templates, "test_template", target)
  {
    assert TemplateFileName("test_template") == "test_template.html";
  }
}
