/**
  The two fixed prompt templates and their rendering with `str.format`.
  A template is held already split into literal text and named replacement
  fields; rendering inserts each field's value verbatim, with no escaping.
 */
module Templates {
  import opened Wrappers

  /** The named replacement fields the two templates use. */
  datatype Field = ProdCatalog | SourceText | Explanation | DestinationLang

  datatype Segment = Lit(text: string) | Slot(field: Field)

  type Template = seq<Segment>

  /** Fields referenced by a template. */
  function FieldsOf(t: Template): set<Field>
  {
    set i | 0 <= i < |t| && t[i].Slot? :: t[i].field
  }

  /** Number of replacement fields of `t` that name `f`. */
  function Occurrences(t: Template, f: Field): nat
  {
    if t == [] then 0 else (if t[0] == Slot(f) then 1 else 0) + Occurrences(t[1..], f)
  }

  /**
    `t.format(**values)`: fields are looked up left to right; the first one
    missing from `values` raises a KeyError, modelled as `Failure` naming it.
    Keyword arguments the template does not use are ignored.
   */
  function Render(t: Template, values: map<Field, string>): (r: Result<string, Field>)
    ensures r.Success? <==> FieldsOf(t) <= values.Keys
    ensures r.Failure? ==> r.error in FieldsOf(t) && r.error !in values
  {
    if t == [] then Success("")
    else
      var head := match t[0]
        case Lit(s) => Success(s)
        case Slot(f) => if f in values then Success(values[f]) else Failure(f);
      if head.Failure? then Failure(head.error)
      else
        var rest := Render(t[1..], values);
        assert FieldsOf(t) == FieldsOf(t[..1]) + FieldsOf(t[1..]) by {
          FieldsOfSplit(t, 1);
        }
        if rest.Failure? then Failure(rest.error) else Success(head.value + rest.value)
  }

  lemma FieldsOfSplit(t: Template, k: nat)
    requires k <= |t|
    ensures FieldsOf(t) == FieldsOf(t[..k]) + FieldsOf(t[k..])
  {
    forall f | f in FieldsOf(t) ensures f in FieldsOf(t[..k]) + FieldsOf(t[k..]) {
      var i :| 0 <= i < |t| && t[i].Slot? && t[i].field == f;
      if i < k { assert t[..k][i] == t[i]; } else { assert t[k..][i - k] == t[i]; }
    }
    forall f | f in FieldsOf(t[k..]) ensures f in FieldsOf(t) {
      var i :| 0 <= i < |t[k..]| && t[k..][i].Slot? && t[k..][i].field == f;
      assert t[k + i] == t[k..][i];
    }
  }

  /** The leftmost field of `t` that `values` lacks is the one reported. */
  lemma {:induction false} RenderReportsFirstMissing(t: Template, values: map<Field, string>)
    requires Render(t, values).Failure?
    ensures exists i :: 0 <= i < |t| && t[i] == Slot(Render(t, values).error)
                        && FieldsOf(t[..i]) <= values.Keys
  {
    if t[0].Slot? && t[0].field !in values {
      assert t[..0] == [];
    } else {
      RenderReportsFirstMissing(t[1..], values);
      var i :| 0 <= i < |t[1..]| && t[1..][i] == Slot(Render(t[1..], values).error)
               && FieldsOf(t[1..][..i]) <= values.Keys;
      assert t[1..][..i] == t[..i + 1][1..];
      FieldsOfSplit(t[..i + 1], 1);
      assert t[..i + 1][..1] == [t[0]];
    }
  }

  /** Rendering a concatenation of templates concatenates the renderings. */
  lemma {:induction false} RenderAppend(a: Template, b: Template, values: map<Field, string>)
    requires FieldsOf(a + b) <= values.Keys
    ensures FieldsOf(a) <= values.Keys && FieldsOf(b) <= values.Keys
    ensures Render(a + b, values).value == Render(a, values).value + Render(b, values).value
  {
    FieldsOfSplit(a + b, |a|);
    assert (a + b)[..|a|] == a && (a + b)[|a|..] == b;
    if a != [] {
      assert (a + b)[0] == a[0];
      assert (a + b)[1..] == a[1..] + b;
      FieldsOfSplit(a, 1);
      RenderAppend(a[1..], b, values);
    }
  }

  /** Fields the template does not reference have no effect on the rendering. */
  lemma {:induction false} RenderIgnoresUnusedFields(t: Template, v1: map<Field, string>, v2: map<Field, string>)
    requires forall f :: f in FieldsOf(t) ==> (f in v1 <==> f in v2) && (f in v1 ==> v1[f] == v2[f])
    ensures Render(t, v1) == Render(t, v2)
  {
    if t != [] {
      FieldsOfSplit(t, 1);
      assert t[..1] == [t[0]];
      RenderIgnoresUnusedFields(t[1..], v1, v2);
    }
  }

  lemma FieldsOfAppend(a: Template, b: Template)
    ensures FieldsOf(a + b) == FieldsOf(a) + FieldsOf(b)
  {
    FieldsOfSplit(a + b, |a|);
    assert (a + b)[..|a|] == a && (a + b)[|a|..] == b;
  }

  lemma {:induction false} OccurrencesAppend(a: Template, b: Template, f: Field)
    ensures Occurrences(a + b, f) == Occurrences(a, f) + Occurrences(b, f)
  {
    if a != [] {
      assert (a + b)[0] == a[0];
      assert (a + b)[1..] == a[1..] + b;
      OccurrencesAppend(a[1..], b, f);
    } else {
      assert a + b == b;
    }
  }

  /** A piece of literal text followed by one replacement field. */
  function LitSlot(text: string, f: Field): Template
  {
    [Lit(text), Slot(f)]
  }

  lemma LitSlotFacts(text: string, f: Field, values: map<Field, string>)
    ensures FieldsOf(LitSlot(text, f)) == {f}
    ensures forall g :: Occurrences(LitSlot(text, f), g) == if g == f then 1 else 0
    ensures f in values ==> Render(LitSlot(text, f), values) == Success(text + values[f])
  {
    var t := LitSlot(text, f);
    assert t[1..] == [Slot(f)];
    assert t[1..][1..] == [];
    assert t[0].Lit? && t[1] == Slot(f);
    forall g ensures Occurrences(t, g) == if g == f then 1 else 0 {
      assert Occurrences(t[1..], g) == (if g == f then 1 else 0) + Occurrences(t[1..][1..], g);
    }
    if f in values {
      assert Render(t[1..][1..], values) == Success("");
      assert Render(t[1..], values) == Success(values[f] + "");
      assert values[f] + "" == values[f];
    }
  }

  lemma LitFacts(text: string, values: map<Field, string>)
    ensures FieldsOf([Lit(text)]) == {}
    ensures forall g :: Occurrences([Lit(text)], g) == 0
    ensures Render([Lit(text)], values) == Success(text)
  {
    assert [Lit(text)][1..] == [];
    assert text + "" == text;
  }

  /** Appending one more piece to a complete template: fields, occurrences and rendering add up. */
  lemma AppendFacts(a: Template, b: Template, values: map<Field, string>)
    requires FieldsOf(a) <= values.Keys && FieldsOf(b) <= values.Keys
    ensures FieldsOf(a + b) == FieldsOf(a) + FieldsOf(b)
    ensures forall g :: Occurrences(a + b, g) == Occurrences(a, g) + Occurrences(b, g)
    ensures Render(a + b, values) == Success(Render(a, values).value + Render(b, values).value)
  {
    FieldsOfAppend(a, b);
    forall g ensures Occurrences(a + b, g) == Occurrences(a, g) + Occurrences(b, g) {
      OccurrencesAppend(a, b, g);
    }
    RenderAppend(a, b, values);
  }

  /** Shape of the explanation template: literal text around the category and the slogan. */
  function ExplanationShape(head: string, mid: string, tail: string): Template
  {
    LitSlot(head, ProdCatalog) + LitSlot(mid, SourceText) + [Lit(tail)]
  }

  /** Shape of the translation template: explanation, category, target language and slogan, in that order. */
  function TranslateShape(head: string, afterExplanation: string, afterCatalog: string, afterLang: string, tail: string): Template
  {
    LitSlot(head, Explanation) + LitSlot(afterExplanation, ProdCatalog) + LitSlot(afterCatalog, DestinationLang)
    + LitSlot(afterLang, SourceText) + [Lit(tail)]
  }

  /**
    The explanation template names the category and the slogan once each and
    nothing else; rendering it puts each value verbatim in its slot.
   */
  lemma ExplanationShapeRender(head: string, mid: string, tail: string, values: map<Field, string>)
    requires ProdCatalog in values && SourceText in values
    ensures FieldsOf(ExplanationShape(head, mid, tail)) == {ProdCatalog, SourceText}
    ensures Occurrences(ExplanationShape(head, mid, tail), ProdCatalog) == 1
    ensures Occurrences(ExplanationShape(head, mid, tail), SourceText) == 1
    ensures Occurrences(ExplanationShape(head, mid, tail), Explanation) == 0
    ensures Occurrences(ExplanationShape(head, mid, tail), DestinationLang) == 0
    ensures Render(ExplanationShape(head, mid, tail), values)
            == Success(head + values[ProdCatalog] + mid + values[SourceText] + tail)
  {
    var p1, p2, p3 := LitSlot(head, ProdCatalog), LitSlot(mid, SourceText), [Lit(tail)];
    LitSlotFacts(head, ProdCatalog, values);
    LitSlotFacts(mid, SourceText, values);
    LitFacts(tail, values);
    AppendFacts(p1, p2, values);
    AppendFacts(p1 + p2, p3, values);
    var v1, v2 := values[ProdCatalog], values[SourceText];
    assert (head + v1) + (mid + v2) == head + v1 + mid + v2;
  }

  /**
    The translation template names each of its four fields exactly once;
    rendering it puts each value verbatim in its slot.
   */
  lemma TranslateShapeRender(head: string, afterExplanation: string, afterCatalog: string, afterLang: string, tail: string,
                             values: map<Field, string>)
    requires Explanation in values && ProdCatalog in values && DestinationLang in values && SourceText in values
    ensures FieldsOf(TranslateShape(head, afterExplanation, afterCatalog, afterLang, tail))
            == {Explanation, ProdCatalog, DestinationLang, SourceText}
    ensures forall f :: Occurrences(TranslateShape(head, afterExplanation, afterCatalog, afterLang, tail), f) == 1
    ensures Render(TranslateShape(head, afterExplanation, afterCatalog, afterLang, tail), values)
            == Success(head + values[Explanation] + afterExplanation + values[ProdCatalog] + afterCatalog
                       + values[DestinationLang] + afterLang + values[SourceText] + tail)
  {
    var p1, p2 := LitSlot(head, Explanation), LitSlot(afterExplanation, ProdCatalog);
    var p3, p4 := LitSlot(afterCatalog, DestinationLang), LitSlot(afterLang, SourceText);
    var p5 := [Lit(tail)];
    LitSlotFacts(head, Explanation, values);
    LitSlotFacts(afterExplanation, ProdCatalog, values);
    LitSlotFacts(afterCatalog, DestinationLang, values);
    LitSlotFacts(afterLang, SourceText, values);
    LitFacts(tail, values);
    AppendFacts(p1, p2, values);
    AppendFacts(p1 + p2, p3, values);
    AppendFacts(p1 + p2 + p3, p4, values);
    AppendFacts(p1 + p2 + p3 + p4, p5, values);
    var v1, v2, v3, v4 := values[Explanation], values[ProdCatalog], values[DestinationLang], values[SourceText];
    assert (head + v1) + (afterExplanation + v2) == head + v1 + afterExplanation + v2;
    assert head + v1 + afterExplanation + v2 + (afterCatalog + v3) == head + v1 + afterExplanation + v2 + afterCatalog + v3;
    assert head + v1 + afterExplanation + v2 + afterCatalog + v3 + (afterLang + v4)
        == head + v1 + afterExplanation + v2 + afterCatalog + v3 + afterLang + v4;
  }

  /**
    The literal text of the two templates, between their replacement fields.
    The explanation template asks for a plain-language gloss of a product's
    slogan inside <explanation> tags; the translation template gives its
    instructions and one worked example, then the explanation, the product
    category, the target language and the slogan in <paragraph> tags.
   */
  datatype Wording = Wording(
    explanationHead: string, explanationMid: string, explanationTail: string,
    translateHead: string, afterExplanation: string, afterCatalog: string, afterLang: string, translateTail: string)
  {
    function ExplanationTemplate(): Template
    {
      ExplanationShape(explanationHead, explanationMid, explanationTail)
    }

    function TranslateTemplate(): Template
    {
      TranslateShape(translateHead, afterExplanation, afterCatalog, afterLang, translateTail)
    }
  }

  /** `explanation_template` and `translate_template` as the program defines them. */
  const SOURCE_WORDING: Wording := Wording(
    "请帮我用白话文解释产品",
    "的广告词 ",
    "\n\nPlease enclose the explanation in <explanation></explanation> XML tags.\n",
    "The slogan to be translated will be give in the xml tags: <paragraph></paragraph>\nThe translate result should be wrapped in xml tags: <translation></translation>\n\nInstructions:\n- 参考explanation里面的解释, 不要丢失 explanation 的内容\n- 最大可能的保证信雅达\n- 使用地道的目标语言\n- 不要改变原文的语序\n- 不要改变原文的目的\n- 保留原文的修辞手法，例如夸张、比喻、拟人和双关\n\n<example>\nsource_text: 易如反掌\ndestination_lang: English\ntranslation: a piece of cake\n</example>\n\nThe paragraph explanation is <explanation>\n",
    "\n</explanation>\n\nThis is a slogan of ",
    ".\n请遵循上面的Instructions, 把下面的广告词改写成地道的 ",
    ", 你可以参考<example></example>中的例子\n<paragraph>",
    "</paragraph>\n")

  /**
    The program's two templates name exactly the fields their `format` calls
    supply, each once: the category and the slogan for the explanation, and
    the explanation, category, target language and slogan for the translation.
   */
  lemma SourceTemplateFields()
    ensures FieldsOf(SOURCE_WORDING.ExplanationTemplate()) == {ProdCatalog, SourceText}
    ensures Occurrences(SOURCE_WORDING.ExplanationTemplate(), ProdCatalog) == 1
    ensures Occurrences(SOURCE_WORDING.ExplanationTemplate(), SourceText) == 1
    ensures FieldsOf(SOURCE_WORDING.TranslateTemplate()) == {Explanation, ProdCatalog, DestinationLang, SourceText}
    ensures forall f :: Occurrences(SOURCE_WORDING.TranslateTemplate(), f) == 1
  {
    var w := SOURCE_WORDING;
    var values := map[Explanation := "", ProdCatalog := "", DestinationLang := "", SourceText := ""];
    ExplanationShapeRender(w.explanationHead, w.explanationMid, w.explanationTail, values);
    TranslateShapeRender(w.translateHead, w.afterExplanation, w.afterCatalog, w.afterLang, w.translateTail, values);
  }

  /** `explanation_template.format(source_text=..., prod_catalog=...)`: each value verbatim in its slot. */
  function ExplanationPrompt(w: Wording, sourceText: string, prodCatalog: string): (r: string)
    ensures r == w.explanationHead + prodCatalog + w.explanationMid + sourceText + w.explanationTail
  {
    var values := map[SourceText := sourceText, ProdCatalog := prodCatalog];
    ExplanationShapeRender(w.explanationHead, w.explanationMid, w.explanationTail, values);
    Render(w.ExplanationTemplate(), values).value
  }

  /**
    `translate_template.format(source_text=..., prod_catalog=..., destination_lang=..., explanation=...)`:
    each value verbatim in its slot.
   */
  function TranslationPrompt(w: Wording, sourceText: string, prodCatalog: string, destinationLang: string,
                             explanation: string): (r: string)
    ensures r == w.translateHead + explanation + w.afterExplanation + prodCatalog
                 + w.afterCatalog + destinationLang + w.afterLang + sourceText + w.translateTail
  {
    var values := map[SourceText := sourceText, ProdCatalog := prodCatalog,
                      DestinationLang := destinationLang, Explanation := explanation];
    TranslateShapeRender(w.translateHead, w.afterExplanation, w.afterCatalog, w.afterLang, w.translateTail, values);
    Render(w.TranslateTemplate(), values).value
  }
}
