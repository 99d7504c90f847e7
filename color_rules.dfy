/** The colour classes of `createColorClasses` in
    `src/theme/utils/createThemeClasses.ts` as a table of rules, and the
    fact that the table names each class once. */
module ColorRules {

  /** The groups of a colour scheme. */
  datatype ColorGroup = Background | Surface | TextColors | Border | Interactive | Semantic

  /** One colour class: its name, the style property it sets, and the
      scheme field it reads. */
  datatype ColorRule = ColorRule(name: string, prop: string, group: ColorGroup, field: string)

  /** The rules in the order of the source object literal, one group per
      scheme section. */
  const COLOR_RULES: seq<ColorRule> :=
    BACKGROUND_RULES + (SURFACE_RULES + (TEXT_RULES + (BORDER_RULES + (INTERACTIVE_RULES + SEMANTIC_RULES))))

  const BACKGROUND_RULES: seq<ColorRule> := [
    ColorRule("bg-primary", "backgroundColor", Background, "primary"),
    ColorRule("bg-secondary", "backgroundColor", Background, "secondary"),
    ColorRule("bg-tertiary", "backgroundColor", Background, "tertiary"),
    ColorRule("bg-inverse", "backgroundColor", Background, "inverse")
  ]

  const SURFACE_RULES: seq<ColorRule> := [
    ColorRule("bg-surface", "backgroundColor", Surface, "primary"),
    ColorRule("bg-surface-secondary", "backgroundColor", Surface, "secondary"),
    ColorRule("bg-surface-tertiary", "backgroundColor", Surface, "tertiary"),
    ColorRule("bg-surface-elevated", "backgroundColor", Surface, "elevated")
  ]

  const TEXT_RULES: seq<ColorRule> := [
    ColorRule("text-primary", "color", TextColors, "primary"),
    ColorRule("text-secondary", "color", TextColors, "secondary"),
    ColorRule("text-tertiary", "color", TextColors, "tertiary"),
    ColorRule("text-inverse", "color", TextColors, "inverse"),
    ColorRule("text-disabled", "color", TextColors, "disabled"),
    ColorRule("text-placeholder", "color", TextColors, "placeholder")
  ]

  const BORDER_RULES: seq<ColorRule> := [
    ColorRule("border-primary", "borderColor", Border, "primary"),
    ColorRule("border-secondary", "borderColor", Border, "secondary"),
    ColorRule("border-focus", "borderColor", Border, "focus"),
    ColorRule("border-error", "borderColor", Border, "error"),
    ColorRule("border-success", "borderColor", Border, "success"),
    ColorRule("border-warning", "borderColor", Border, "warning")
  ]

  const INTERACTIVE_RULES: seq<ColorRule> := [
    ColorRule("bg-interactive-primary", "backgroundColor", Interactive, "primary"),
    ColorRule("bg-interactive-primary-hover", "backgroundColor", Interactive, "primaryHover"),
    ColorRule("bg-interactive-primary-pressed", "backgroundColor", Interactive, "primaryPressed"),
    ColorRule("bg-interactive-secondary", "backgroundColor", Interactive, "secondary"),
    ColorRule("bg-interactive-secondary-hover", "backgroundColor", Interactive, "secondaryHover"),
    ColorRule("bg-interactive-secondary-pressed", "backgroundColor", Interactive, "secondaryPressed"),
    ColorRule("bg-interactive-disabled", "backgroundColor", Interactive, "disabled")
  ]

  const SEMANTIC_RULES: seq<ColorRule> := [
    ColorRule("bg-success", "backgroundColor", Semantic, "success"),
    ColorRule("bg-success-background", "backgroundColor", Semantic, "successBackground"),
    ColorRule("bg-error", "backgroundColor", Semantic, "error"),
    ColorRule("bg-error-background", "backgroundColor", Semantic, "errorBackground"),
    ColorRule("bg-warning", "backgroundColor", Semantic, "warning"),
    ColorRule("bg-warning-background", "backgroundColor", Semantic, "warningBackground"),
    ColorRule("bg-info", "backgroundColor", Semantic, "info"),
    ColorRule("bg-info-background", "backgroundColor", Semantic, "infoBackground")
  ]

  predicate NamesDistinct(rules: seq<ColorRule>) {
    forall i, j | 0 <= i < j < |rules| :: rules[i].name != rules[j].name
  }

  /** No name of `a` is a name of `b`. */
  predicate NamesApart(a: seq<ColorRule>, b: seq<ColorRule>) {
    forall i, j | 0 <= i < |a| && 0 <= j < |b| :: a[i].name != b[j].name
  }

  /** The colour class names are distinct, so no class of the object
      literal overrides another. Each group's names are distinct and
      apart from those of the later groups. */
  lemma ColorNamesDistinct()
    ensures forall i, j | 0 <= i < j < |COLOR_RULES| :: COLOR_RULES[i].name != COLOR_RULES[j].name
  {
    GroupNamesDistinct();
    BackgroundApart();
    SurfaceApart();
    TextApart();
    BorderApart();
    InteractiveApart();
    DistinctAppend(INTERACTIVE_RULES, SEMANTIC_RULES);
    DistinctAppend(BORDER_RULES, INTERACTIVE_RULES + SEMANTIC_RULES);
    DistinctAppend(TEXT_RULES, BORDER_RULES + (INTERACTIVE_RULES + SEMANTIC_RULES));
    DistinctAppend(SURFACE_RULES, TEXT_RULES + (BORDER_RULES + (INTERACTIVE_RULES + SEMANTIC_RULES)));
    DistinctAppend(BACKGROUND_RULES, SURFACE_RULES + (TEXT_RULES + (BORDER_RULES + (INTERACTIVE_RULES + SEMANTIC_RULES))));
    assert NamesDistinct(COLOR_RULES);
  }

  lemma DistinctAppend(a: seq<ColorRule>, b: seq<ColorRule>)
    requires NamesDistinct(a) && NamesDistinct(b) && NamesApart(a, b)
    ensures NamesDistinct(a + b)
  {
    forall i, j | 0 <= i < j < |a + b|
      ensures (a + b)[i].name != (a + b)[j].name
    {
      if j < |a| {
        assert (a + b)[i] == a[i] && (a + b)[j] == a[j];
      } else if i < |a| {
        assert (a + b)[i] == a[i] && (a + b)[j] == b[j - |a|];
      } else {
        assert (a + b)[i] == b[i - |a|] && (a + b)[j] == b[j - |a|];
      }
    }
  }

  lemma GroupNamesDistinct()
    ensures NamesDistinct(BACKGROUND_RULES) && NamesDistinct(SURFACE_RULES) && NamesDistinct(TEXT_RULES)
    ensures NamesDistinct(BORDER_RULES) && NamesDistinct(INTERACTIVE_RULES) && NamesDistinct(SEMANTIC_RULES)
  {
    FirstGroupsDistinct();
    MiddleGroupsDistinct();
    InteractiveDistinct();
    SemanticDistinct();
  }

  lemma FirstGroupsDistinct()
    ensures NamesDistinct(BACKGROUND_RULES) && NamesDistinct(SURFACE_RULES)
  {
  }

  lemma MiddleGroupsDistinct()
    ensures NamesDistinct(TEXT_RULES) && NamesDistinct(BORDER_RULES)
  {
  }

  lemma InteractiveDistinct()
    ensures NamesDistinct(INTERACTIVE_RULES)
  {
  }

  lemma SemanticDistinct()
    ensures NamesDistinct(SEMANTIC_RULES)
  {
  }

  lemma BackgroundApart()
    ensures NamesApart(BACKGROUND_RULES, SURFACE_RULES + (TEXT_RULES + (BORDER_RULES + (INTERACTIVE_RULES + SEMANTIC_RULES))))
  {
  }

  lemma SurfaceApart()
    ensures NamesApart(SURFACE_RULES, TEXT_RULES + (BORDER_RULES + (INTERACTIVE_RULES + SEMANTIC_RULES)))
  {
  }

  lemma TextApart()
    ensures NamesApart(TEXT_RULES, BORDER_RULES + (INTERACTIVE_RULES + SEMANTIC_RULES))
  {
  }

  lemma BorderApart()
    ensures NamesApart(BORDER_RULES, INTERACTIVE_RULES + SEMANTIC_RULES)
  {
  }

  lemma InteractiveApart()
    ensures NamesApart(INTERACTIVE_RULES, SEMANTIC_RULES)
  {
  }
}
