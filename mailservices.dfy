/**
 * The mail entry point: every enabled mail chute gets the message; when
 * none saved it and the default mail chute is enabled, the configured
 * default mail munger saves it, or an error is logged when that munger
 * does not exist.
 */
module MailServices {
  import opened Base
  import opened Mungers
  import opened Logs
  import Chutes

  /** `DEFAULT_MAIL_CHUTE_ENABLED` and `DEFAULT_MAIL_MUNGER`. */
  datatype MailSettings = MailSettings(defaultChuteEnabled: bool, defaultMunger: string)

  /** The MailMunger table: every entry is a mail munger. */
  predicate MailMungers(mungers: seq<Munger>)
  {
    forall i :: 0 <= i < |mungers| ==> mungers[i].MailMunger?
  }

  /**
   * What `catch_email` saves. `MailMunger.objects.get` searches the mail
   * mungers only, so `mungers` is the MailMunger table: every entry is a
   * `MailMunger`.
   */
  function CatchOutput(mungers: seq<Munger>, s: MailSettings, email: Doc, env: Env): (r: seq<Record>)
    requires MailMungers(mungers)
    ensures |r| <= 1
    ensures r != [] ==> r[0].docId == Header(email, "Message-ID") && r[0].collection == Some(JStr(env.mailCollection))
    ensures r == [] <==> forall i :: 0 <= i < |mungers| ==> mungers[i].name != s.defaultMunger
  {
    match FindByName(mungers, s.defaultMunger)
    case None => []
    case Some(m) => [SavedRecord(m, email, None, None, None, env)]
  }

  /** What `process_email` saves. */
  function EmailOutput(chutes: seq<Chutes.Chute>, mungers: seq<Munger>, s: MailSettings, email: Doc,
                       sm: SieveMatch, env: Env): seq<Record>
    requires MailMungers(mungers)
  {
    var byChutes := Chutes.Outputs(Chutes.FindEnabled(chutes), email, None, None, None, sm, env);
    byChutes + (if byChutes == [] && s.defaultChuteEnabled then CatchOutput(mungers, s, email, env) else [])
  }

  /** `catch_email(email)`. */
  method CatchEmail(mungers: seq<Munger>, s: MailSettings, store: RecordStore, log: Log, email: Doc, env: Env)
    modifies store, log
    requires MailMungers(mungers)
    ensures store.records == old(store.records) + CatchOutput(mungers, s, email, env)
    ensures log.entries == old(log.entries)
      + (if FindByName(mungers, s.defaultMunger).None? then [MailMungerNotConfigured(s.defaultMunger, Header(email, "Message-ID"))] else [])
  {
    var found := FindByName(mungers, s.defaultMunger);
    if found.Some? {
      var _ := Mungers.Process(found.value, store, email, None, None, None, env);
    } else {
      log.Add(MailMungerNotConfigured(s.defaultMunger, Header(email, "Message-ID")));
    }
  }

  /** `process_email(email)`. */
  method ProcessEmail(chutes: seq<Chutes.Chute>, mungers: seq<Munger>, s: MailSettings, store: RecordStore,
                      log: Log, email: Doc, sm: SieveMatch, env: Env)
    modifies store, log
    requires MailMungers(mungers)
    ensures store.records == old(store.records) + EmailOutput(chutes, mungers, s, email, sm, env)
    ensures var caught := Chutes.Outputs(Chutes.FindEnabled(chutes), email, None, None, None, sm, env) == []
                          && s.defaultChuteEnabled;
      log.entries == old(log.entries)
        + (if caught && FindByName(mungers, s.defaultMunger).None?
           then [MailMungerNotConfigured(s.defaultMunger, Header(email, "Message-ID"))] else [])
  {
    var enabled := Chutes.FindEnabled(chutes);
    var saved := Chutes.ProcessAll(enabled, store, email, None, None, None, sm, env);
    if !saved && s.defaultChuteEnabled {
      CatchEmail(mungers, s, store, log, email, env);
    }
  }

  /**
   * When no enabled chute accepts the message and the default chute is
   * enabled, exactly one record is saved, by the default munger, if it
   * exists; if it does not, nothing is saved. With the default chute
   * disabled an unmatched message is not saved at all.
   */
  lemma UnmatchedEmailFallsBack(chutes: seq<Chutes.Chute>, mungers: seq<Munger>, s: MailSettings, email: Doc,
                                sm: SieveMatch, env: Env)
    requires MailMungers(mungers)
    requires forall c :: c in chutes ==> !Chutes.Accepts(c, email, sm)
    ensures var out := EmailOutput(chutes, mungers, s, email, sm, env);
      var m := FindByName(mungers, s.defaultMunger);
      (s.defaultChuteEnabled && m.Some? ==> out == [SavedRecord(m.value, email, None, None, None, env)])
      && (!s.defaultChuteEnabled || m.None? ==> out == [])
  {
    var enabled := Chutes.FindEnabled(chutes);
    Chutes.OutputsOnePerAcceptingChute(enabled, email, None, None, None, sm, env);
  }

  /** A message some enabled chute accepts is never handed to the default munger. */
  lemma MatchedEmailSkipsDefault(chutes: seq<Chutes.Chute>, mungers: seq<Munger>, s: MailSettings, email: Doc,
                                 sm: SieveMatch, env: Env)
    requires MailMungers(mungers)
    requires exists c :: c in chutes && Chutes.Accepts(c, email, sm)
    ensures EmailOutput(chutes, mungers, s, email, sm, env)
            == Chutes.Outputs(Chutes.FindEnabled(chutes), email, None, None, None, sm, env)
    ensures |EmailOutput(chutes, mungers, s, email, sm, env)| == Chutes.CountAccepting(Chutes.FindEnabled(chutes), email, sm)
  {
    var enabled := Chutes.FindEnabled(chutes);
    var c :| c in chutes && Chutes.Accepts(c, email, sm);
    assert c in enabled;
    Chutes.OutputsOnePerAcceptingChute(enabled, email, None, None, None, sm, env);
  }
}
