/** Facts about the worker's own data: every placeholder of its templates
    but one names a property of the replacement table, so its excuses come
    out free of braces, except those made from the fifth technical
    template, whose `{EVERYTHING}` token nothing replaces. */
module Catalogue {
  import opened Js
  import opened Draws
  import opened Segments
  import opened Interpolation
  import opened Outburst
  import opened Selection
  import opened ExcuseData
  import opened Excuse

  /** Every `{NAME}` token of the template names one of the keys. */
  predicate AllKnown(t: Template, keys: seq<Plain>) {
    forall i :: 0 <= i < |t| && t[i].Hole? ==> t[i].name in keys
  }

  lemma Corporate1Known()
    ensures AllKnown(Corporate1, ReplacementKeys)
  {
  }

  lemma Corporate2Known()
    ensures AllKnown(Corporate2, ReplacementKeys)
  {
  }

  lemma Corporate3Known()
    ensures AllKnown(Corporate3, ReplacementKeys)
  {
  }

  lemma Corporate4Known()
    ensures AllKnown(Corporate4, ReplacementKeys)
  {
  }

  lemma Corporate5Known()
    ensures AllKnown(Corporate5, ReplacementKeys)
  {
  }

  lemma CorporateHigh1Known()
    ensures AllKnown(CorporateHigh1, ReplacementKeys)
  {
  }

  lemma CorporateHigh2Known()
    ensures AllKnown(CorporateHigh2, ReplacementKeys)
  {
  }

  lemma Technical1Known()
    ensures AllKnown(Technical1, ReplacementKeys)
  {
  }

  lemma Technical2Known()
    ensures AllKnown(Technical2, ReplacementKeys)
  {
  }

  lemma Technical3Known()
    ensures AllKnown(Technical3, ReplacementKeys)
  {
  }

  lemma Technical4Known()
    ensures AllKnown(Technical4, ReplacementKeys)
  {
  }

  lemma TechnicalHigh1Known()
    ensures AllKnown(TechnicalHigh1, ReplacementKeys)
  {
  }

  lemma TechnicalHigh2Known()
    ensures AllKnown(TechnicalHigh2, ReplacementKeys)
  {
  }

  lemma Defensive1Known()
    ensures AllKnown(Defensive1, ReplacementKeys)
  {
  }

  lemma Defensive2Known()
    ensures AllKnown(Defensive2, ReplacementKeys)
  {
  }

  lemma Defensive3Known()
    ensures AllKnown(Defensive3, ReplacementKeys)
  {
  }

  lemma Defensive4Known()
    ensures AllKnown(Defensive4, ReplacementKeys)
  {
  }

  lemma Defensive5Known()
    ensures AllKnown(Defensive5, ReplacementKeys)
  {
  }

  lemma DefensiveHigh1Known()
    ensures AllKnown(DefensiveHigh1, ReplacementKeys)
  {
  }

  lemma DefensiveHigh2Known()
    ensures AllKnown(DefensiveHigh2, ReplacementKeys)
  {
  }

  /** The corporate templates use only names the replacement table has. */
  lemma {:induction false} CorporateKnown(t: Template)
    requires t in CorporateBase + CorporateExtra
    ensures AllKnown(t, ReplacementKeys)
  {
    if t == Corporate1 {
      Corporate1Known();
    } else if t == Corporate2 {
      Corporate2Known();
    } else if t == Corporate3 {
      Corporate3Known();
    } else if t == Corporate4 {
      Corporate4Known();
    } else if t == Corporate5 {
      Corporate5Known();
    } else if t == CorporateHigh1 {
      CorporateHigh1Known();
    } else if t == CorporateHigh2 {
      CorporateHigh2Known();
    } else {
      assert false;
    }
  }
  /** The technical templates other than the fifth use only names the replacement table has. */
  lemma {:induction false} TechnicalKnown(t: Template)
    requires t in TechnicalBase + TechnicalExtra
    requires t != Technical5
    ensures AllKnown(t, ReplacementKeys)
  {
    if t == Technical1 {
      Technical1Known();
    } else if t == Technical2 {
      Technical2Known();
    } else if t == Technical3 {
      Technical3Known();
    } else if t == Technical4 {
      Technical4Known();
    } else if t == TechnicalHigh1 {
      TechnicalHigh1Known();
    } else if t == TechnicalHigh2 {
      TechnicalHigh2Known();
    } else {
      assert false;
    }
  }
  /** The defensive templates use only names the replacement table has. */
  lemma {:induction false} DefensiveKnown(t: Template)
    requires t in DefensiveBase + DefensiveExtra
    ensures AllKnown(t, ReplacementKeys)
  {
    if t == Defensive1 {
      Defensive1Known();
    } else if t == Defensive2 {
      Defensive2Known();
    } else if t == Defensive3 {
      Defensive3Known();
    } else if t == Defensive4 {
      Defensive4Known();
    } else if t == Defensive5 {
      Defensive5Known();
    } else if t == DefensiveHigh1 {
      DefensiveHigh1Known();
    } else if t == DefensiveHigh2 {
      DefensiveHigh2Known();
    } else {
      assert false;
    }
  }
  /** Every template the worker's getTemplates can offer, except the fifth
      technical one, uses only names the replacement table has. */
  lemma {:induction false} OfferedKnown(tone: Value, snark: Value, t: Template)
    requires t in TemplatePool(Templates, tone, snark) && t != Technical5
    ensures AllKnown(t, ReplacementKeys)
  {
    PoolMembers(Templates, tone, snark, t);
    if tone == Str("corporate") {
      CorporateKnown(t);
    } else if tone == Str("technical") {
      TechnicalKnown(t);
    } else {
      DefensiveKnown(t);
    }
  }

  /** The worker's getTemplates offers five templates for a known tone,
      seven at the high snark level, and none for any other tone. */
  lemma {:induction false} WorkerPoolSize(tone: Value, snark: Value)
    ensures |TemplatePool(Templates, tone, snark)| == (if !KnownTone(tone) then 0 else if snark == Str("high") then 7 else 5)
  {
    PoolShape(Templates, tone, snark);
  }

  /** `EVERYTHING` is not a property of the replacement table. */
  lemma EverythingUnknown()
    ensures "EVERYTHING" !in ReplacementKeys
  {
    NotInKeys0();
    NotInKeys1();
    NotInKeys2();
    NotInKeys3();
    NotInKeys4();
    NotInKeys5();
    NotInKeys6();
    NotInKeys7();
  }

  lemma NotInKeys0()
    ensures "EVERYTHING" !in ReplacementKeys0
  {
  }

  lemma NotInKeys1()
    ensures "EVERYTHING" !in ReplacementKeys1
  {
  }

  lemma NotInKeys2()
    ensures "EVERYTHING" !in ReplacementKeys2
  {
  }

  lemma NotInKeys3()
    ensures "EVERYTHING" !in ReplacementKeys3
  {
  }

  lemma NotInKeys4()
    ensures "EVERYTHING" !in ReplacementKeys4
  {
  }

  lemma NotInKeys5()
    ensures "EVERYTHING" !in ReplacementKeys5
  {
  }

  lemma NotInKeys6()
    ensures "EVERYTHING" !in ReplacementKeys6
  {
  }

  lemma NotInKeys7()
    ensures "EVERYTHING" !in ReplacementKeys7
  {
  }

  /** Whatever the draws, the excuse made from the fifth technical template
      still shows the `{EVERYTHING}` token. */
  lemma {:induction false} EverythingSurvives(table: seq<Entry>, rand: Random, pos: nat)
    requires Valid(rand) && Keys(table) == ReplacementKeys
    ensures Includes(Interpolated(Technical5, table, rand, pos), Token("EVERYTHING"))
  {
    EverythingUnknown();
    assert Technical5[9] == Hole("EVERYTHING");
    UnknownTokenKept(Technical5, table, rand, pos, 9);
  }

  /** Away from an outburst, a known tone always yields a string excuse: one
      of the offered templates, interpolated with the draws after the pick.
      That excuse is never empty, and it holds no brace unless it was made
      from the fifth technical template, in which case it shows the
      `{EVERYTHING}` token. */
  lemma {:induction false} WorkerExcuseText(message: string, snark: Value, tone: Value, outbursts: OutburstTable,
                         table: seq<Entry>, rand: Random, pos: nat)
    requires Valid(rand) && KnownTone(tone) && Keys(table) == ReplacementKeys
    requires !(IsStatusQuestion(ToLowerCase(message)) && rand(pos) < OutburstChance)
    ensures var (out, _) := ExcuseOutcome(Str(message), snark, tone, Templates, outbursts, table, rand, pos);
      var p := if IsStatusQuestion(ToLowerCase(message)) then pos + 2 else pos + 1;
      exists t ::
        && t in TemplatePool(Templates, tone, snark)
        && out == Returned(Str(Interpolated(t, table, rand, p)))
        && |Interpolated(t, table, rand, p)| > 0
        && (t != Technical5 ==> '{' !in Interpolated(t, table, rand, p) && '}' !in Interpolated(t, table, rand, p))
        && (t == Technical5 ==> Includes(Interpolated(t, table, rand, p), Token("EVERYTHING")))
  {
    PoolShape(Templates, tone, snark);
    TemplateExcuse(message, snark, tone, Templates, outbursts, table, rand, pos);
    var p := if IsStatusQuestion(ToLowerCase(message)) then pos + 2 else pos + 1;
    var t :| t in TemplatePool(Templates, tone, snark) &&
      ExcuseOutcome(Str(message), snark, tone, Templates, outbursts, table, rand, pos).0
        == Returned(Str(Interpolated(t, table, rand, p)));
    OfferedExcuse(tone, snark, t, table, rand, p);
  }

  /** The text is non-empty and holds no brace. */
  predicate CleanText(s: string) {
    |s| > 0 && '{' !in s && '}' !in s
  }

  /** Every rant of the worker's outburst object is non-empty and holds no
      brace. */
  lemma {:induction false} RantsClean(r: string)
    requires r in Outbursts.low || r in Outbursts.medium || r in Outbursts.high
    ensures CleanText(r)
  {
  }

  /** generateExcuse end to end, over both of its branches, with the
      worker's templates and rants: for a known tone and a snark level that
      is missing or a string other than an Object.prototype name, it always
      returns a non-empty string, and a brace in it only ever comes with the
      `{EVERYTHING}` token of the fifth technical template. */
  lemma {:induction false} WorkerExcuse(message: string, snark: Value, tone: Value, table: seq<Entry>,
                                        rand: Random, pos: nat)
    requires Valid(rand) && KnownTone(tone) && Keys(table) == ReplacementKeys
    requires !(snark.Str? && snark.s in InheritedNames)
    ensures var (out, _) := ExcuseOutcome(Str(message), snark, tone, Templates, Outbursts, table, rand, pos);
      && out.Returned? && out.v.Str? && |out.v.s| > 0
      && ('{' in out.v.s || '}' in out.v.s ==> Includes(out.v.s, Token("EVERYTHING")))
  {
    if IsStatusQuestion(ToLowerCase(message)) && rand(pos) < OutburstChance {
      OutburstTaken(message, snark, tone, Templates, Outbursts, table, rand, pos);
      var r := GenerateOutburst(Outbursts, snark, rand(pos + 1));
      RantsClean(r.s);
    } else {
      WorkerExcuseText(message, snark, tone, Outbursts, table, rand, pos);
    }
  }

  /** The excuse made from any template the worker offers: non-empty, and
      brace-free except for the fifth technical template, whose
      `{EVERYTHING}` token survives. */
  lemma {:induction false} OfferedExcuse(tone: Value, snark: Value, t: Template, table: seq<Entry>, rand: Random, p: nat)
    requires Valid(rand) && Keys(table) == ReplacementKeys && t in TemplatePool(Templates, tone, snark)
    ensures |Interpolated(t, table, rand, p)| > 0
    ensures t != Technical5 ==> '{' !in Interpolated(t, table, rand, p) && '}' !in Interpolated(t, table, rand, p)
    ensures t == Technical5 ==> Includes(Interpolated(t, table, rand, p), Token("EVERYTHING"))
  {
    OfferedLeads(tone, snark, t);
    NonEmptyWhenLeadingText(t, table, rand, p);
    if t == Technical5 {
      EverythingSurvives(table, rand, p);
    } else {
      OfferedKnown(tone, snark, t);
      BraceFreeWhenAllKnown(t, table, rand, p);
    }
  }

  /** The template opens with a run of literal text. */
  predicate LeadsWithText(t: Template) {
    t != [] && t[0].Lit? && t[0].text != []
  }

  /** Every template the worker's getTemplates can offer opens with literal
      text. */
  lemma {:induction false} OfferedLeads(tone: Value, snark: Value, t: Template)
    requires t in TemplatePool(Templates, tone, snark)
    ensures LeadsWithText(t)
  {
    PoolMembers(Templates, tone, snark, t);
    if tone == Str("corporate") {
      CorporateLeads(t);
    } else if tone == Str("technical") {
      TechnicalLeads(t);
    } else {
      DefensiveLeads(t);
    }
  }

  lemma {:induction false} CorporateLeads(t: Template)
    requires t in CorporateBase + CorporateExtra
    ensures LeadsWithText(t)
  {
  }

  lemma {:induction false} TechnicalLeads(t: Template)
    requires t in TechnicalBase + TechnicalExtra
    ensures LeadsWithText(t)
  {
  }

  lemma {:induction false} DefensiveLeads(t: Template)
    requires t in DefensiveBase + DefensiveExtra
    ensures LeadsWithText(t)
  {
  }

  /** The token does reach the caller: a technical excuse for a message
      that is no status question, below the high snark level, picks the
      fifth template whenever the pick's draw is at least 0.8. */
  lemma {:induction false} EverythingReachesTheCaller(message: string, snark: Value, templates: TemplateTable,
                                   outbursts: OutburstTable, table: seq<Entry>, rand: Random, pos: nat)
    requires Valid(rand) && templates.technical == ToneTemplates(TechnicalBase, TechnicalExtra)
    requires Keys(table) == ReplacementKeys
    requires !IsStatusQuestion(ToLowerCase(message)) && snark != Str("high") && rand(pos) >= 0.8
    ensures var (out, _) := ExcuseOutcome(Str(message), snark, Str("technical"), templates, outbursts, table, rand, pos);
      out.Returned? && out.v.Str? && Includes(out.v.s, Token("EVERYTHING"))
  {
    NoOutburst(message, snark, Str("technical"), templates, outbursts, table, rand, pos);
    FifthTechnicalPicked(templates, snark, rand(pos));
    EverythingSurvives(table, rand, pos + 1);
  }

  /** Below the high snark level the technical pool holds five templates,
      and a draw of at least 0.8 picks the fifth. */
  lemma {:induction false} FifthTechnicalPicked(templates: TemplateTable, snark: Value, d: real)
    requires templates.technical == ToneTemplates(TechnicalBase, TechnicalExtra)
    requires snark != Str("high") && 0.8 <= d < 1.0
    ensures TemplatePool(templates, Str("technical"), snark) == TechnicalBase
    ensures PickTemplate(TemplatePool(templates, Str("technical"), snark), d) == Str(Render(Technical5))
  {
    assert TemplatePool(templates, Str("technical"), snark) == TechnicalBase;
    PickExactly(d, 5, 4);
  }
}
