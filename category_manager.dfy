/** The category manager: the list of spending categories, their budget and colour edits, and the creation form. */
module CategoryManager {
  import opened Options
  import opened Types
  import opened Seqs
  import opened Numbers
  import opened App

  /** The creation form's draft category. */
  datatype Draft = Draft(name: string, group: CategoryGroup, budget: int, color: string)

  /** The draft the form starts from and returns to after a creation. */
  const BlankDraft := Draft("", Want, 0, "#6366F1")

  /** The groups the creation form's select offers. */
  const OfferedGroups: seq<CategoryGroup> := [Need, Want, Saving]

  /** `parseFloat(text) || 0`, in cents: the parsed amount, or 0 when the text is not a number. */
  function BudgetOf(text: string): (b: int)
    ensures ParseCents(text).None? ==> b == 0
    ensures ParseCents(text).Some? ==> b == ParseCents(text).value
  {
    ParseCents(text).GetOr(0)
  }

  /** The label under a listed category: NEED and WANT have their own, every other group reads as saving. */
  function GroupLabel(g: CategoryGroup): (shown: string)
    ensures g == Need <==> shown == "Necessidade"
    ensures g == Want <==> shown == "Desejo"
    ensures g != Need && g != Want <==> shown == "Poupança"
  {
    match g
    case Need => "Necessidade"
    case Want => "Desejo"
    case _ => "Poupança"
  }

  /** The categories the manager lists: every category outside the income group, in order. */
  function Listed(cs: seq<Category>): (r: seq<Category>)
    ensures forall c :: c in r <==> c in cs && c.group != CategoryGroup.Income
  {
    Filter(cs, (c: Category) => c.group != CategoryGroup.Income)
  }

  /** A category appended to the store shows at the end of the list unless it is an income category. */
  lemma ListedAfterAppend(cs: seq<Category>, c: Category)
    ensures Listed(cs + [c]) == Listed(cs) + (if c.group != CategoryGroup.Income then [c] else [])
  {
    FilterConcat(cs, [c], (x: Category) => x.group != CategoryGroup.Income);
    FilterSingleton(c, (x: Category) => x.group != CategoryGroup.Income);
  }

  /** The update a budget input sends. */
  function BudgetPatch(text: string): CategoryPatch {
    NoChange.(budget := Some(BudgetOf(text)))
  }

  /** The update a colour swatch sends. */
  function ColorPatch(color: string): CategoryPatch {
    NoChange.(color := Some(color))
  }

  /** A budget edit changes the budget of the edited category and nothing else; unreadable input sets it to 0. */
  lemma BudgetEdit(cs: seq<Category>, id: string, text: string)
    ensures var r := UpdateCategories(cs, id, BudgetPatch(text));
      |r| == |cs| && forall i :: 0 <= i < |cs| ==>
        r[i] == if cs[i].id == id then cs[i].(budget := BudgetOf(text)) else cs[i]
  {
  }

  /** A swatch click changes the colour of that category and nothing else. */
  lemma ColorEdit(cs: seq<Category>, id: string, color: string)
    ensures var r := UpdateCategories(cs, id, ColorPatch(color));
      |r| == |cs| && forall i :: 0 <= i < |cs| ==>
        r[i] == if cs[i].id == id then cs[i].(color := color) else cs[i]
  {
  }

  /** The manager's own state: whether the creation form is open, and its draft. */
  class Manager {
    var showAdd: bool
    var draft: Draft

    /** The select only offers the spending groups, and no control changes the draft colour. */
    predicate Valid()
      reads this
    {
      draft.group in OfferedGroups && draft.color == BlankDraft.color
    }

    constructor()
      ensures Valid()
      ensures !showAdd && draft == BlankDraft
    {
      showAdd := false;
      draft := BlankDraft;
    }

    /** The "Nova Categoria" / "Cancelar" button. */
    method ToggleAdd()
      requires Valid()
      modifies this`showAdd
      ensures Valid()
      ensures showAdd == !old(showAdd)
    {
      showAdd := !showAdd;
    }

    method SetName(name: string)
      requires Valid()
      modifies this`draft
      ensures Valid()
      ensures draft == old(draft).(name := name)
    {
      draft := draft.(name := name);
    }

    /** The group select; its options are the offered groups. */
    method SetGroup(g: CategoryGroup)
      requires Valid() && g in OfferedGroups
      modifies this`draft
      ensures Valid()
      ensures draft == old(draft).(group := g)
    {
      draft := draft.(group := g);
    }

    method SetBudget(text: string)
      requires Valid()
      modifies this`draft
      ensures Valid()
      ensures draft == old(draft).(budget := BudgetOf(text))
    {
      draft := draft.(budget := BudgetOf(text));
    }

    /**
     * `handleAdd`: with an empty name nothing is created and nothing changes; otherwise the draft becomes a
     * category with icon `fa-tag` and the given id, never in the income group, and the form is reset and
     * closed.
     */
    method HandleAdd(id: string) returns (created: Option<Category>)
      requires Valid()
      modifies this
      ensures Valid()
      ensures old(draft.name) == "" ==> created.None? && draft == old(draft) && showAdd == old(showAdd)
      ensures old(draft.name) != "" ==>
        created == Some(Category(id, old(draft.name), "fa-tag", old(draft.color), old(draft.group), old(draft.budget)))
        && draft == BlankDraft && !showAdd
      ensures created.Some? ==> created.value.group != CategoryGroup.Income && created.value.name != ""
    {
      if draft.name == "" {
        return None;
      }
      created := Some(Category(id, draft.name, "fa-tag", draft.color, draft.group, draft.budget));
      draft := BlankDraft;
      showAdd := false;
    }
  }
}
