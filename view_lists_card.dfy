/** The "View Lists" card: two buttons that choose which list the parent
    page shows, or none. */
module ViewListsCard {
  import opened Wrappers

  datatype View = Yearly | Project

  /** The button look: `default` when highlighted, `outline` otherwise. */
  datatype Variant = Default | Outline

  /** "Check Yearly": hides the yearly list when it is showing, else shows it. */
  function OnYearlyClick(activeView: Option<View>): Option<View>
  {
    if activeView == Some(Yearly) then None else Some(Yearly)
  }

  /** "Check Project Wise": the same rule for the project list. */
  function OnProjectClick(activeView: Option<View>): Option<View>
  {
    if activeView == Some(Project) then None else Some(Project)
  }

  /** The next view after clicking the button for `view`. */
  function Click(activeView: Option<View>, view: View): Option<View>
  {
    match view
    case Yearly => OnYearlyClick(activeView)
    case Project => OnProjectClick(activeView)
  }

  /** The variant of the button for `view`. */
  function ButtonVariant(activeView: Option<View>, view: View): Variant
  {
    if activeView == Some(view) then Default else Outline
  }

  /** A click on a button shows its view unless that view is already
      showing, in which case it shows none. */
  lemma ClickRule(activeView: Option<View>, view: View)
    ensures activeView == Some(view) ==> Click(activeView, view) == None
    ensures activeView != Some(view) ==> Click(activeView, view) == Some(view)
  {
  }

  /** Clicking the same button twice returns to the start when the start
      was no view or that button's view; from the other view it ends on no
      view instead. */
  lemma ClickTwice(activeView: Option<View>, view: View)
    ensures activeView == None || activeView == Some(view) ==>
      Click(Click(activeView, view), view) == activeView
    ensures activeView.Some? && activeView != Some(view) ==>
      Click(Click(activeView, view), view) == None
  {
  }

  /** A button is highlighted exactly when its view is the active one, so
      at most one button is highlighted, and each click flips the clicked
      button's highlight and clears the other's. */
  lemma VariantFollowsView(activeView: Option<View>, view: View, other: View)
    requires other != view
    ensures ButtonVariant(activeView, view) == Default <==> activeView == Some(view)
    ensures !(ButtonVariant(activeView, view) == Default && ButtonVariant(activeView, other) == Default)
    ensures ButtonVariant(Click(activeView, view), view) == Default <==> ButtonVariant(activeView, view) == Outline
    ensures ButtonVariant(Click(activeView, view), other) == Outline
  {
  }
}
