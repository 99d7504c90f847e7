/** The toast list of `src/components/common/Toast.tsx`: the manager's
    list of toasts, their stacking position, their defaults, the variant
    classes, and the `useToast` shortcuts.

    A toast's id comes from the clock and a random number; here it is a
    parameter of `Show`. Animation, the safe-area inset source and the
    dismiss timer itself are not modelled; whether a timer is scheduled
    is. */
module Toast {
  import opened Wrappers

  datatype Variant = DefaultVariant | SuccessVariant | ErrorVariant | WarningVariant | InfoVariant

  /** `Omit<ToastData, "id">`: what a caller passes to `show`. */
  datatype Draft = Draft(title: string, description: Option<string>, variant: Option<Variant>, duration: Option<int>)

  datatype ToastData = ToastData(id: string, title: string, description: Option<string>,
                                 variant: Option<Variant>, duration: Option<int>)

  const DEFAULT_DURATION := 4000

  /** `{ ...toast, id }`. */
  function WithId(d: Draft, id: string): (t: ToastData)
    ensures t.id == id && t.title == d.title && t.description == d.description
    ensures t.variant == d.variant && t.duration == d.duration
  {
    ToastData(id, d.title, d.description, d.variant, d.duration)
  }

  /** The variant a toast renders with: "default" unless one is given. */
  function VariantOf(t: ToastData): Variant {
    t.variant.GetOr(DefaultVariant)
  }

  /** The duration a toast uses: 4000 unless one is given (0 included). */
  function DurationOf(t: ToastData): int {
    t.duration.GetOr(DEFAULT_DURATION)
  }

  /** A dismiss timer is scheduled exactly when the duration is positive,
      so a toast without a duration is dismissed after 4000 ms and one
      with duration 0 stays until dismissed by hand. */
  predicate AutoDismisses(t: ToastData) {
    DurationOf(t) > 0
  }

  lemma DefaultsApply(t: ToastData)
    ensures t.variant.None? ==> VariantOf(t) == DefaultVariant
    ensures t.duration.None? ==> DurationOf(t) == DEFAULT_DURATION && AutoDismisses(t)
    ensures t.duration == Some(0) ==> !AutoDismisses(t)
  {
  }

  /** The distance from the top of the screen of the toast at `index`. */
  function TopOffset(insetsTop: real, index: nat): real {
    insetsTop + 16.0 + (index as real) * 80.0
  }

  function ZIndex(index: nat): int {
    1000 + index
  }

  /** Later toasts sit lower and above earlier ones: offsets are 80 apart
      and both offset and stacking order grow strictly with the index. */
  lemma StackingOrder(insetsTop: real, i: nat, j: nat)
    requires i < j
    ensures TopOffset(insetsTop, i) < TopOffset(insetsTop, j) && ZIndex(i) < ZIndex(j)
    ensures TopOffset(insetsTop, i + 1) - TopOffset(insetsTop, i) == 80.0
    ensures TopOffset(insetsTop, 0) == insetsTop + 16.0 && ZIndex(0) == 1000
  {
  }

  /** `toastTextVariants`: the variant part of a toast's text classes. */
  function TextClass(v: Variant): string {
    match v
    case DefaultVariant => "text-text-primary"
    case SuccessVariant => "text-white"
    case ErrorVariant => "text-white"
    case WarningVariant => "text-text-primary"
    case InfoVariant => "text-white"
  }

  /** The colour class of the dismiss icon's strokes. */
  function IconClass(v: Variant): string {
    if v == DefaultVariant || v == WarningVariant then "bg-text-secondary" else "bg-white"
  }

  /** The text is white exactly when the dismiss icon is white, and both
      are white exactly on the coloured variants. */
  lemma TextMatchesIcon(v: Variant)
    ensures TextClass(v) == "text-white" <==> IconClass(v) == "bg-white"
    ensures IconClass(v) == "bg-white" <==> v in {SuccessVariant, ErrorVariant, InfoVariant}
  {
  }

  /** `prev.filter((toast) => toast.id !== id)`. */
  function RemoveId(toasts: seq<ToastData>, id: string): (r: seq<ToastData>)
    ensures |r| <= |toasts|
    ensures forall t :: t in r <==> t in toasts && t.id != id
  {
    if toasts == [] then []
    else if toasts[0].id == id then RemoveId(toasts[1..], id)
    else [toasts[0]] + RemoveId(toasts[1..], id)
  }

  /** Removal distributes over concatenation, so the kept toasts stay in
      their order. */
  lemma {:induction false} RemoveIdAppend(a: seq<ToastData>, b: seq<ToastData>, id: string)
    ensures RemoveId(a + b, id) == RemoveId(a, id) + RemoveId(b, id)
  {
    if a != [] {
      assert (a + b)[1..] == a[1..] + b;
      RemoveIdAppend(a[1..], b, id);
    } else {
      assert a + b == b;
    }
  }

  /** Removing an id no toast has changes nothing. */
  lemma {:induction false} RemoveUnknownId(toasts: seq<ToastData>, id: string)
    requires forall t | t in toasts :: t.id != id
    ensures RemoveId(toasts, id) == toasts
  {
    if toasts != [] {
      RemoveUnknownId(toasts[1..], id);
      assert toasts == [toasts[0]] + toasts[1..];
    }
  }

  /** Hiding the toast just shown gives back the list it was shown on,
      provided its id was fresh. */
  lemma ShowThenHide(toasts: seq<ToastData>, d: Draft, id: string)
    requires forall t | t in toasts :: t.id != id
    ensures RemoveId(toasts + [WithId(d, id)], id) == toasts
  {
    RemoveIdAppend(toasts, [WithId(d, id)], id);
    RemoveUnknownId(toasts, id);
    assert [WithId(d, id)][1..] == [];
  }

  predicate DistinctIds(toasts: seq<ToastData>) {
    forall i, j | 0 <= i < j < |toasts| :: toasts[i].id != toasts[j].id
  }

  /** The `ToastManager` component's state. */
  class Manager {
    var toasts: seq<ToastData>

    constructor ()
      ensures toasts == []
    {
      toasts := [];
    }

    /** `show(toast)`: one toast with the given id is appended after the
        existing ones; with a fresh id the ids stay distinct. */
    method Show(d: Draft, id: string)
      modifies this
      ensures toasts == old(toasts) + [WithId(d, id)]
      ensures old(DistinctIds(toasts)) && (forall t | t in old(toasts) :: t.id != id) ==> DistinctIds(toasts)
    {
      var newToast := WithId(d, id);
      toasts := toasts + [newToast];
    }

    /** `hide(id)`: exactly the toasts with that id go. */
    method Hide(id: string)
      modifies this
      ensures toasts == RemoveId(old(toasts), id)
      ensures (forall t | t in old(toasts) :: t.id != id) ==> toasts == old(toasts)
    {
      RemoveUnknownIdIf(toasts, id);
      toasts := RemoveId(toasts, id);
    }

    method HideAll()
      modifies this
      ensures toasts == []
    {
      toasts := [];
    }
  }

  lemma RemoveUnknownIdIf(toasts: seq<ToastData>, id: string)
    ensures (forall t | t in toasts :: t.id != id) ==> RemoveId(toasts, id) == toasts
  {
    if forall t | t in toasts :: t.id != id {
      RemoveUnknownId(toasts, id);
    }
  }

  /** `useToast()`: every call goes to the mounted manager, and does
      nothing when none is mounted. */
  class Hook {
    var target: Manager?

    constructor (target: Manager?)
      ensures this.target == target
    {
      this.target := target;
    }

    method Show(d: Draft, id: string)
      modifies target
      ensures target != null ==> target.toasts == old(target.toasts) + [WithId(d, id)]
    {
      if target != null {
        target.Show(d, id);
      }
    }

    /** `success`, `error`, `warning` and `info`: a toast of that variant
        with the given title and description. */
    method ShowVariant(v: Variant, title: string, description: Option<string>, id: string)
      requires v != DefaultVariant
      modifies target
      ensures target != null ==> target.toasts == old(target.toasts) + [ToastData(id, title, description, Some(v), None)]
    {
      Show(Draft(title, description, Some(v), None), id);
    }

    method Hide(id: string)
      modifies target
      ensures target != null ==> target.toasts == RemoveId(old(target.toasts), id)
    {
      if target != null {
        target.Hide(id);
      }
    }

    method HideAll()
      modifies target
      ensures target != null ==> target.toasts == []
    {
      if target != null {
        target.HideAll();
      }
    }
  }
}
