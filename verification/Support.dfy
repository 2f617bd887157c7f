/** A shop's contact and sharing settings: the handler that stores them, and the account page that
    shows them and sends them back. */
module Support {
  import opened Wrappers
  import opened Text
  import opened Template

  datatype Settings = Settings(instagram: string, whatsapp: string, channel: string, template: string)

  datatype Input = Input(instagram: string, whatsapp: string, channel: string, template: Option<string>)

  predicate HandleChar(c: char) {
    c == '.' || c == '_' || 'a' <= c <= 'z' || 'A' <= c <= 'Z' || '0' <= c <= '9'
  }

  /** validInstagramUsername */
  predicate ValidInstagram(s: string) {
    s != "" && ByteLength(s) <= 30 && forall i :: 0 <= i < |s| ==> HandleChar(s[i])
  }

  function CleanInstagram(s: string): string { TrimPrefix(Trim(s), "@") }

  /** updateShopSupport; None is a rejection, which stores nothing. */
  function Save(stored: Settings, input: Input): Option<Settings> {
    var instagram := CleanInstagram(input.instagram);
    var whatsapp := SaveWhatsApp(input.whatsapp);
    var channel := Trim(input.channel);
    var template := SaveTemplate(stored.template, input.template);
    if instagram != "" && !ValidInstagram(instagram) then None
    else if whatsapp.None? then None
    else if channel != "" && channel != "instagram" && channel != "whatsapp" then None
    else if (channel == "instagram" && instagram == "") || (channel == "whatsapp" && whatsapp.value == "") then None
    else if template.None? then None
    else Some(Settings(instagram, whatsapp.value, channel, template.value))
  }

  /** What the account page shows, and sends when the seller saves without touching anything. */
  function Shown(s: Settings): Input {
    Input(s.instagram, ShowWhatsApp(s.whatsapp), s.channel, Some(s.template))
  }

  /** The settings after the shop's creation and any saves, rejected ones included. */
  function After(first: string, saves: seq<Input>): Settings {
    if saves == [] then Settings(CleanInstagram(first), "", "", "")
    else
      var before := After(first, saves[..|saves| - 1]);
      Save(before, saves[|saves| - 1]).GetOr(before)
  }

  /** createSelfServiceShop accepts an empty handle or a valid one. */
  predicate AcceptedFirst(first: string) {
    CleanInstagram(first) == "" || ValidInstagram(CleanInstagram(first))
  }

  // ---------------------------------------------------------------- what every stored setting satisfies

  ghost predicate SettingsOk(s: Settings) {
    && (s.instagram == "" || ValidInstagram(s.instagram))
    && (exists form :: SaveWhatsApp(form) == Some(s.whatsapp))
    && (s.channel == "" || (s.channel == "instagram" && s.instagram != "")
          || (s.channel == "whatsapp" && s.whatsapp != ""))
    && Trim(s.template) == s.template && |s.template| <= 1000
    && (s.template != "" ==> Contains(s.template, Name(CustomerUrl)))
  }

  lemma HandleIsClean(s: string)
    requires ValidInstagram(s)
    ensures CleanInstagram(s) == s
  {
    assert HandleChar(s[0]) && HandleChar(s[|s| - 1]);
    assert !IsSpace(s[0]) && !IsSpace(s[|s| - 1]) && s[0] != '@';
    assert TrimLeft(s) == s && TrimRight(s) == s;
    assert !HasPrefix(s, "@") by { assert s[..1][0] == s[0]; }
  }

  lemma ChannelIsClean(s: string)
    requires s == "" || s == "instagram" || s == "whatsapp"
    ensures Trim(s) == s
  {
    if s != "" {
      assert !IsSpace(s[0]) && !IsSpace(s[|s| - 1]);
      assert TrimLeft(s) == s && TrimRight(s) == s;
    }
  }

  lemma SaveOk(stored: Settings, input: Input)
    requires SettingsOk(stored) && Save(stored, input).Some?
    ensures SettingsOk(Save(stored, input).value)
  {
    hide ValidInstagram, CleanInstagram, SaveWhatsApp, Contains, Trim;
    if input.template.Some? { TrimTwice(input.template.value); }
  }

  lemma {:induction false} AfterOk(first: string, saves: seq<Input>)
    requires AcceptedFirst(first)
    ensures SettingsOk(After(first, saves))
  {
    if saves == [] {
      hide ValidInstagram, CleanInstagram;
      assert SaveWhatsApp("") == Some("");
    } else {
      var before := After(first, saves[..|saves| - 1]);
      AfterOk(first, saves[..|saves| - 1]);
      hide SettingsOk, Save;
      if Save(before, saves[|saves| - 1]).Some? { SaveOk(before, saves[|saves| - 1]); }
    }
  }

  /** One to thirty letters, digits, dots and underscores. */
  lemma HandleShape(s: string)
    ensures ValidInstagram(s) <==>
              1 <= |s| <= 30 && forall c :: c in s ==>
                'a' <= c <= 'z' || 'A' <= c <= 'Z' || '0' <= c <= '9' || c == '.' || c == '_'
  {
    assert (forall c :: c in s ==> HandleChar(c)) <==> forall i :: 0 <= i < |s| ==> HandleChar(s[i]);
    assert forall c :: HandleChar(c) <==>
        'a' <= c <= 'z' || 'A' <= c <= 'Z' || '0' <= c <= '9' || c == '.' || c == '_';
    if forall i :: 0 <= i < |s| ==> HandleChar(s[i]) { BytesOfHandle(s); }
  }

  lemma {:induction false} BytesOfHandle(s: string)
    requires forall i :: 0 <= i < |s| ==> HandleChar(s[i])
    ensures ByteLength(s) == |s|
  {
    if s != "" {
      BytesOfHandle(s[1..]);
    }
  }

  /** A save stores the handle without its sign, the number as 98 and its digits, the channel and the
      template as sent, or the old template when none is sent; it is refused exactly when one of them is
      invalid, the channel names an empty contact, or the template lacks the link. */
  lemma SaveIsDecided(stored: Settings, input: Input)
    ensures var handle, channel := TrimPrefix(Trim(input.instagram), "@"), Trim(input.channel);
            var blank, mobile := Trim(input.whatsapp) == "", NormalizeMobile(input.whatsapp);
            var template := if input.template == None then stored.template else Trim(input.template.value);
            if (handle == "" || ValidInstagram(handle)) && (blank || IsMobile(mobile))
               && (channel == "" || (channel == "instagram" && handle != "") || (channel == "whatsapp" && !blank))
               && |template| <= 1000 && (template == "" || Contains(template, "{customerUrl}"))
            then Save(stored, input)
                 == Some(Settings(handle, if blank then "" else "98" + mobile[1..], channel, template))
            else Save(stored, input) == None
  {
    WhatsAppAcceptedIff(input.whatsapp);
    hide Trim, TrimPrefix, NormalizeMobile, IsMobile, ValidInstagram, Contains, SaveWhatsApp;
  }

  // ---------------------------------------------------------------- the theorems

  lemma TemplateStays(template: string)
    requires Trim(template) == template && |template| <= 1000
    requires template != "" ==> Contains(template, Name(CustomerUrl))
    ensures SaveTemplate(template, Some(template)) == Some(template)
  {
  }

  lemma ShownIsAccepted(s: Settings)
    requires SettingsOk(s)
    ensures Save(s, Shown(s)) == Some(s)
  {
    if s.instagram != "" { HandleIsClean(s.instagram); }
    ChannelIsClean(s.channel);
    TemplateStays(s.template);
    hide ValidInstagram, CleanInstagram, Contains, Trim, SaveTemplate, SaveWhatsApp, ShowWhatsApp;
    var form: string :| SaveWhatsApp(form) == Some(s.whatsapp);
    WhatsAppRoundTrip(form);
  }

  /** In every history of saves, saving what the page shows is accepted and changes nothing. */
  lemma SavingUntouchedChangesNothing(first: string, saves: seq<Input>)
    requires AcceptedFirst(first)
    ensures var s := After(first, saves); Save(s, Shown(s)) == Some(s)
  {
    AfterOk(first, saves);
    ShownIsAccepted(After(first, saves));
  }

  /** In every history of saves, the default support channel leads somewhere, and every order's
      message carries its link. */
  lemma SettingsAlwaysWork(first: string, saves: seq<Input>, v: Values)
    requires AcceptedFirst(first)
    ensures var s := After(first, saves);
            && (s.channel == "instagram" ==> ValidInstagram(s.instagram))
            && (s.channel == "whatsapp" ==> AllDigits(s.whatsapp) && |s.whatsapp| == 12 && HasPrefix(s.whatsapp, "989"))
            && Contains(ShareMessage(s.template, v), v.customerUrl)
  {
    AfterOk(first, saves);
    var s := After(first, saves);
    hide Contains, ShareMessage, ValidInstagram;
    var form: string :| SaveWhatsApp(form) == Some(s.whatsapp);
    if s.whatsapp != "" { StoredWhatsApp(form); }
    AcceptedTemplatesCarryTheLink(s.template, None, v);
  }

  lemma StoredWhatsApp(form: string)
    requires SaveWhatsApp(form).Some? && SaveWhatsApp(form).value != ""
    ensures var n := SaveWhatsApp(form).value; AllDigits(n) && |n| == 12 && HasPrefix(n, "989")
  {
    var m := NormalizeMobile(form);
    assert AllDigits(m);
    ByteLengthOfDigits(m);
    PrefixByIndex(m, "09");
    var n := "98" + m[1..];
    PrefixByIndex(n, "989");
  }

  /** The settings columns of a shop row, updated in place. */
  class ShopRow {
    var settings: Settings

    constructor (first: string)
      ensures settings == After(first, [])
    {
      settings := Settings(CleanInstagram(first), "", "", "");
    }

    /** updateShopSupport: the checks in the handler's order, then one update of four columns. */
    method UpdateSupport(input: Input) returns (ok: bool)
      modifies this
      ensures ok <==> Save(old(settings), input).Some?
      ensures settings == Save(old(settings), input).GetOr(old(settings))
    {
      var instagram := TrimPrefix(Trim(input.instagram), "@");
      if instagram != "" && !ValidInstagram(instagram) {
        return false;
      }
      var whatsapp := "";
      if Trim(input.whatsapp) != "" {
        var mobile := NormalizeMobile(input.whatsapp);
        if ByteLength(mobile) != 11 || !HasPrefix(mobile, "09") {
          return false;
        }
        whatsapp := "98" + mobile[1..];
      }
      var channel := Trim(input.channel);
      if channel != "" && channel != "instagram" && channel != "whatsapp" {
        return false;
      }
      if (channel == "instagram" && instagram == "") || (channel == "whatsapp" && whatsapp == "") {
        return false;
      }
      var template := settings.template;
      if input.template.Some? {
        template := Trim(input.template.value);
      }
      if |template| > 1000 {
        return false;
      }
      if template != "" && !Contains(template, Name(CustomerUrl)) {
        return false;
      }
      settings := Settings(instagram, whatsapp, channel, template);
      return true;
    }
  }
}
