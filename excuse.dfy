/** `generateExcuse` and the request handler around it: a status question
    sometimes gets an outburst, every other message an interpolated template
    of its tone, and anything that throws becomes the fallback excuse with
    status 500. */
module Excuse {
  import opened Js
  import opened Draws
  import opened Segments
  import opened Interpolation
  import opened Outburst
  import opened Selection
  import opened ExcuseData

  /** The chance of an outburst on a status question: a draw below it
      triggers one. */
  const OutburstChance: real := 0.15

  /** The JSON body of an excuse request. `Malformed` is a body that does not
      parse, or parses to `null`, so that reading its fields throws; a field
      the body does not have is `Undefined`. */
  datatype Request = Malformed | Body(message: Value, snark: Value, tone: Value)

  /** The handler's answer: its HTTP status and the `excuse` field of its JSON
      body (`Undefined` when the field is absent, as `JSON.stringify` drops
      an undefined property). */
  datatype Response = Response(status: nat, excuse: Value)

  /** What interpolateTemplate does with the picked template, and the next
      unread draw. */
  function InterpolationOf(template: Value, table: seq<Entry>, rand: Random, pos: nat): (Outcome, nat)
    requires Valid(rand)
  {
    match template
    case Undefined => (if table == [] then Returned(Undefined) else Threw, pos)
    case Str(s) => var (r, next) := ResolveAll(s, table, rand, pos); (Returned(Str(r)), next)
  }

  /** `templates[Math.floor(d * templates.length)]`: the template string
      the draw `d` selects, `undefined` when the list is empty. */
  function PickTemplate(pool: seq<Template>, d: real): (r: Value)
    requires 0.0 <= d < 1.0
  {
    var i := Pick(d, |pool|);
    if i < |pool| then Str(Render(pool[i])) else Undefined
  }

  /** The excuse path of generateExcuse from the draw at `pos` on: the
      template pick, then its interpolation. */
  function PlainExcuse(snark: Value, tone: Value, templates: TemplateTable, table: seq<Entry>,
                       rand: Random, pos: nat): (Outcome, nat)
    requires Valid(rand)
  {
    InterpolationOf(PickTemplate(TemplatePool(templates, tone, snark), rand(pos)), table, rand, pos + 1)
  }

  /** generateExcuse(message, snark, tone) over the draws from `pos` on: what
      it returns or that it throws, and the next unread draw. The outburst
      coin is drawn only for a status question. This is the specification
      the GenerateExcuse method is proved against; its properties are the
      lemmas below. */
  function ExcuseOutcome(message: Value, snark: Value, tone: Value, templates: TemplateTable,
                         outbursts: OutburstTable, table: seq<Entry>, rand: Random, pos: nat): (Outcome, nat)
    requires Valid(rand)
  {
    if message.Undefined? then (Threw, pos)
    else
      var status := IsStatusQuestion(ToLowerCase(message.s));
      if status && rand(pos) < OutburstChance then
        (Returned(GenerateOutburst(outbursts, snark, rand(pos + 1))), pos + 2)
      else
        PlainExcuse(snark, tone, templates, table, rand, if status then pos + 1 else pos)
  }

  /** generateExcuse, step by step as the worker runs it, proved to compute
      its specification ExcuseOutcome. */
  method GenerateExcuse(message: Value, snark: Value, tone: Value, templates: TemplateTable,
                        outbursts: OutburstTable, table: seq<Entry>, rand: Random, pos: nat)
    returns (out: Outcome, next: nat)
    requires Valid(rand)
    ensures (out, next) == ExcuseOutcome(message, snark, tone, templates, outbursts, table, rand, pos)
  {
    if message.Undefined? {
      return Threw, pos;
    }
    var messageLC := ToLowerCase(message.s);
    var isStatusQuestion := IsStatusQuestion(messageLC);
    next := pos;
    var shouldOutburst := false;
    if isStatusQuestion {
      shouldOutburst := rand(next) < OutburstChance;
      next := next + 1;
    }
    if shouldOutburst {
      var rant := GenerateOutburst(outbursts, snark, rand(next));
      OutburstTaken(message.s, snark, tone, templates, outbursts, table, rand, pos);
      return Returned(rant), next + 1;
    }
    NoOutburst(message.s, snark, tone, templates, outbursts, table, rand, pos);
    out, next := NormalExcuse(snark, tone, templates, table, rand, next);
  }

  /** The excuse path of generateExcuse: getTemplates, the pick, and
      interpolateTemplate on the picked template. */
  method NormalExcuse(snark: Value, tone: Value, templates: TemplateTable, table: seq<Entry>,
                      rand: Random, pos: nat)
    returns (out: Outcome, next: nat)
    requires Valid(rand)
    ensures (out, next) == PlainExcuse(snark, tone, templates, table, rand, pos)
  {
    var pool := GetTemplates(templates, tone, snark);
    var i := Pick(rand(pos), |pool|);
    var template := if i < |pool| then Str(Render(pool[i])) else Undefined;
    assert template == PickTemplate(pool, rand(pos));
    out, next := InterpolateTemplate(template, table, rand, pos + 1);
    assert (out, next) == InterpolationOf(template, table, rand, pos + 1);
  }

  /** On a status question whose coin falls below the chance, the excuse is
      a rant of the snark level's list (none at all for a snark level named
      like an Object.prototype property), two draws are used, and neither
      the tone, the templates nor the placeholder table play any part. */
  lemma {:induction false} OutburstPath(message: string, snark: Value, tone: Value, templates: TemplateTable,
                     outbursts: OutburstTable, table: seq<Entry>, rand: Random, pos: nat)
    requires Valid(rand) && IsStatusQuestion(ToLowerCase(message)) && rand(pos) < OutburstChance
    ensures var (out, next) := ExcuseOutcome(Str(message), snark, tone, templates, outbursts, table, rand, pos);
      next == pos + 2 && out.Returned? &&
      (snark == Str("low") ==> out.v.Str? && out.v.s in outbursts.low) &&
      (snark == Str("high") ==> out.v.Str? && out.v.s in outbursts.high) &&
      (snark.Str? && snark.s in InheritedNames ==> out.v == Undefined) &&
      (!(snark.Str? && (snark.s in InheritedNames || snark.s == "low" || snark.s == "high")) ==>
         out.v.Str? && out.v.s in outbursts.medium) &&
      forall tone', templates', table' ::
        ExcuseOutcome(Str(message), snark, tone', templates', outbursts, table', rand, pos) == (out, next)
  {
  }

  /** Away from an outburst, and with templates to pick from, the excuse is
      one of the pool's templates interpolated with the draws after the
      pick, and the draws used are the coin (on a status question only), the
      pick, and one per `{KEY}` token of the template whose KEY the table
      has. */
  lemma {:induction false} TemplateExcuse(message: string, snark: Value, tone: Value, templates: TemplateTable,
                                          outbursts: OutburstTable, table: seq<Entry>, rand: Random, pos: nat)
    requires Valid(rand) && |TemplatePool(templates, tone, snark)| > 0
    requires !(IsStatusQuestion(ToLowerCase(message)) && rand(pos) < OutburstChance)
    ensures var (out, next) := ExcuseOutcome(Str(message), snark, tone, templates, outbursts, table, rand, pos);
      var p := if IsStatusQuestion(ToLowerCase(message)) then pos + 2 else pos + 1;
      exists t ::
        && t in TemplatePool(templates, tone, snark)
        && out == Returned(Str(Interpolated(t, table, rand, p)))
        && next == p + KnownCount(t, Keys(table))
  {
    var q := if IsStatusQuestion(ToLowerCase(message)) then pos + 1 else pos;
    NoOutburst(message, snark, tone, templates, outbursts, table, rand, pos);
    PickInterpolated(snark, tone, templates, table, rand, q);
  }

  lemma {:induction false} OutburstTaken(message: string, snark: Value, tone: Value, templates: TemplateTable,
                                         outbursts: OutburstTable, table: seq<Entry>, rand: Random, pos: nat)
    requires Valid(rand) && IsStatusQuestion(ToLowerCase(message)) && rand(pos) < OutburstChance
    ensures ExcuseOutcome(Str(message), snark, tone, templates, outbursts, table, rand, pos)
      == (Returned(GenerateOutburst(outbursts, snark, rand(pos + 1))), pos + 2)
  {
  }

  /** Away from an outburst, generateExcuse goes down the excuse path, from
      the draw after the coin on a status question and from the first draw
      otherwise. */
  lemma {:induction false} NoOutburst(message: string, snark: Value, tone: Value, templates: TemplateTable,
                   outbursts: OutburstTable, table: seq<Entry>, rand: Random, pos: nat)
    requires Valid(rand) && !(IsStatusQuestion(ToLowerCase(message)) && rand(pos) < OutburstChance)
    ensures ExcuseOutcome(Str(message), snark, tone, templates, outbursts, table, rand, pos)
      == PlainExcuse(snark, tone, templates, table, rand, if IsStatusQuestion(ToLowerCase(message)) then pos + 1 else pos)
  {
  }

  /** The excuse path from the draw at `pos`: the picked template of the
      pool, interpolated with the draws after the pick. */
  lemma {:induction false} PickInterpolated(snark: Value, tone: Value, templates: TemplateTable, table: seq<Entry>,
                         rand: Random, pos: nat)
    requires Valid(rand) && |TemplatePool(templates, tone, snark)| > 0
    ensures exists t ::
      && t in TemplatePool(templates, tone, snark)
      && PlainExcuse(snark, tone, templates, table, rand, pos)
         == (Returned(Str(Interpolated(t, table, rand, pos + 1))), pos + 1 + KnownCount(t, Keys(table)))
  {
    var pool := TemplatePool(templates, tone, snark);
    var t := pool[Pick(rand(pos), |pool|)];
    ResolveAllFills(t, table, rand, pos + 1);
    FillAllDraws(t, table, rand, pos + 1);
    assert PlainExcuse(snark, tone, templates, table, rand, pos) == InterpolationOf(Str(Render(t)), table, rand, pos + 1);
  }

  /** For a tone getTemplates does not know there is no template to pick,
      so, away from an outburst, the excuse throws whenever the table has
      any key, and the handler answers 500 with the fallback excuse. */
  lemma {:induction false} UnknownToneFails(message: string, snark: Value, tone: Value, templates: TemplateTable,
                         outbursts: OutburstTable, table: seq<Entry>, rand: Random, pos: nat)
    requires Valid(rand) && !KnownTone(tone) && table != []
    ensures var (out, _) := ExcuseOutcome(Str(message), snark, tone, templates, outbursts, table, rand, pos);
      Respond(out) == Response(500, Str(FallbackExcuse)) <==>
        !(IsStatusQuestion(ToLowerCase(message)) && rand(pos) < OutburstChance)
  {
  }

  /** The catch clause of handleExcuseRequest: a returned excuse goes out
      with status 200, anything thrown becomes the fallback excuse with
      status 500. */
  function Respond(out: Outcome): (r: Response)
    ensures r.status == 200 || r.status == 500
    ensures r.status == 500 <==> out.Threw?
    ensures out.Returned? ==> r.excuse == out.v
    ensures out.Threw? ==> r.excuse == Str(FallbackExcuse)
  {
    match out
    case Returned(v) => Response(200, v)
    case Threw => Response(500, Str(FallbackExcuse))
  }

  /** handleExcuseRequest for one request, reading the draws from the
      start of `rand`. The worker's tables are `ExcuseData.Templates`,
      `ExcuseData.Outbursts` and `ExcuseData.Replacements`. */
  method HandleExcuseRequest(request: Request, templates: TemplateTable, outbursts: OutburstTable,
                             table: seq<Entry>, rand: Random)
    returns (response: Response)
    requires Valid(rand)
    ensures request.Malformed? ==> response == Response(500, Str(FallbackExcuse))
    ensures request.Body? ==>
      response == Respond(ExcuseOutcome(request.message, request.snark, request.tone, templates, outbursts, table, rand, 0).0)
  {
    if request.Malformed? {
      return Respond(Threw);
    }
    var out, _ := GenerateExcuse(request.message, request.snark, request.tone, templates, outbursts, table, rand, 0);
    response := Respond(out);
  }
}
