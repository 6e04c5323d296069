/** `getTemplates`: the list of templates an excuse is picked from, chosen by
    tone, with two extra templates per tone at the high snark level. */
module Selection {
  import opened Js
  import opened Segments

  /** The templates of one tone: those pushed at every snark level, and
      those pushed only at the high one. */
  datatype ToneTemplates = ToneTemplates(base: seq<Template>, extra: seq<Template>)

  /** The template lists getTemplates pushes from, one per tone it knows.
      `ExcuseData.Templates` holds the worker's. */
  datatype TemplateTable = TemplateTable(corporate: ToneTemplates, technical: ToneTemplates, defensive: ToneTemplates)

  /** The tones getTemplates knows; any other value (including a non-string)
      matches none of its `===` tests. */
  predicate KnownTone(tone: Value) {
    tone == Str("corporate") || tone == Str("technical") || tone == Str("defensive")
  }

  /** The templates of a known tone. */
  function ToneOf(table: TemplateTable, tone: Value): ToneTemplates
    requires KnownTone(tone)
  {
    if tone == Str("corporate") then table.corporate
    else if tone == Str("technical") then table.technical
    else table.defensive
  }

  /** What getTemplates returns: nothing for an unknown tone; the tone's
      base templates, followed by its extras when the snark level is exactly
      "high". */
  function TemplatePool(table: TemplateTable, tone: Value, snark: Value): seq<Template> {
    if !KnownTone(tone) then []
    else
      var tt := ToneOf(table, tone);
      tt.base + (if snark == Str("high") then tt.extra else [])
  }

  /** A template is on offer exactly when it is one of the tone's base
      templates, or one of its extras at the high snark level; an unknown
      tone offers none. */
  lemma {:induction false} PoolMembers(table: TemplateTable, tone: Value, snark: Value, t: Template)
    ensures t in TemplatePool(table, tone, snark) <==>
      KnownTone(tone) && (t in ToneOf(table, tone).base || (snark == Str("high") && t in ToneOf(table, tone).extra))
  {
  }

  /** The pool's size: the tone's base templates, plus its extras at the
      high snark level; the base templates come first. */
  lemma {:induction false} PoolShape(table: TemplateTable, tone: Value, snark: Value)
    ensures |TemplatePool(table, tone, snark)| == (if !KnownTone(tone) then 0
      else |ToneOf(table, tone).base| + (if snark == Str("high") then |ToneOf(table, tone).extra| else 0))
    ensures KnownTone(tone) ==> TemplatePool(table, tone, snark)[..|ToneOf(table, tone).base|] == ToneOf(table, tone).base
  {
  }

  /** getTemplates(tone, snarkLevel): start from an empty list and push the
      tone's templates, then its extras when the snark level is "high". */
  method GetTemplates(table: TemplateTable, tone: Value, snark: Value) returns (templates: seq<Template>)
    ensures templates == TemplatePool(table, tone, snark)
  {
    templates := [];
    if tone == Str("corporate") {
      templates := templates + table.corporate.base;
      if snark == Str("high") {
        templates := templates + table.corporate.extra;
      }
    }
    if tone == Str("technical") {
      templates := templates + table.technical.base;
      if snark == Str("high") {
        templates := templates + table.technical.extra;
      }
    }
    if tone == Str("defensive") {
      templates := templates + table.defensive.base;
      if snark == Str("high") {
        templates := templates + table.defensive.extra;
      }
    }
  }
}
