/**
 * One-active-tab switching, as the page's panel tabs and the login/signup
 * demo's tabs do it: every tab button loses its `active` class and the
 * clicked one gains it; every pane loses it and the first pane answering
 * to the clicked tab's name gains it. A node list is an array of `active`
 * flags; `paneNames` holds what each pane answers to (its id for the panel
 * contents, its class for the auth forms).
 */
module Tabs {
  import opened Wrappers

  /** `querySelector(...)` gave `null` and the handler read a property of it. */
  datatype TypeError = TypeError

  /** The first position holding `name`, as `getElementById` and `querySelector` pick it. */
  function FirstIndex(names: seq<string>, name: string): (r: Option<nat>)
    ensures r.Some? ==> r.value < |names| && names[r.value] == name
    ensures r.Some? ==> forall k | 0 <= k < r.value :: names[k] != name
    ensures r.None? ==> forall k | 0 <= k < |names| :: names[k] != name
  {
    if names == [] then None
    else if names[0] == name then Some(0)
    else match FirstIndex(names[1..], name)
      case None => None
      case Some(k) => Some(k + 1)
  }

  /** How many flags are set. */
  function CountTrue(flags: seq<bool>): nat {
    if flags == [] then 0 else (if flags[0] then 1 else 0) + CountTrue(flags[1..])
  }

  /** Flags set at exactly the positions `p` holds. */
  predicate OnlyAt(flags: seq<bool>, p: Option<nat>) {
    forall k | 0 <= k < |flags| :: flags[k] <==> p == Some(k)
  }

  /** Flags set only at `p` number one when `p` is a position, none otherwise. */
  lemma {:induction false} OnlyAtCount(flags: seq<bool>, p: Option<nat>)
    requires OnlyAt(flags, p)
    ensures CountTrue(flags) == (if p.Some? && p.value < |flags| then 1 else 0)
  {
    if flags != [] {
      var rest: Option<nat> := if p.Some? && p.value > 0 then Some(p.value - 1) else None;
      assert OnlyAt(flags[1..], rest) by {
        forall k | 0 <= k < |flags[1..]|
          ensures flags[1..][k] <==> rest == Some(k)
        {
          assert flags[1..][k] == flags[k + 1];
        }
      }
      OnlyAtCount(flags[1..], rest);
    }
  }

  /**
   * With the auth demo loaded twice into one document, a document-wide
   * lookup finds a form in the first copy whenever that copy has one.
   */
  lemma FirstCopyWins(names: seq<string>, name: string)
    ensures FirstIndex(names + names, name) == FirstIndex(names, name)
  {
    FirstSkipsAbsent(names, names, name);
  }

  /** A lookup in `a + b` that `a` answers is `a`'s answer; otherwise it is `b`'s, shifted. */
  lemma {:induction false} FirstSkipsAbsent(a: seq<string>, b: seq<string>, name: string)
    ensures FirstIndex(a, name).Some? ==> FirstIndex(a + b, name) == FirstIndex(a, name)
    ensures FirstIndex(a, name).None? && FirstIndex(b, name).Some? ==>
      FirstIndex(a + b, name) == Some(|a| + FirstIndex(b, name).value)
    ensures FirstIndex(a, name).None? && FirstIndex(b, name).None? ==> FirstIndex(a + b, name).None?
  {
    if a == [] {
      assert a + b == b;
    } else if a[0] != name {
      assert (a + b)[0] == a[0];
      assert (a + b)[1..] == a[1..] + b;
      FirstSkipsAbsent(a[1..], b, name);
      FirstIndexStep(a, name);
      FirstIndexStep(a + b, name);
    }
  }

  /** A lookup that misses the first name is the lookup in the rest, shifted by one. */
  lemma FirstIndexStep(names: seq<string>, name: string)
    requires names != [] && names[0] != name
    ensures FirstIndex(names, name) == if FirstIndex(names[1..], name).Some?
      then Some(FirstIndex(names[1..], name).value + 1) else None
  {
  }

  class TabStrip {
    /** The `active` flags of the tab buttons. */
    const tabs: array<bool>
    /** The `active` flags of the panes. */
    const panes: array<bool>
    /** What each pane answers to. */
    const paneNames: seq<string>

    predicate Valid()
      reads this
    {
      tabs != panes && |paneNames| == panes.Length
    }

    constructor (tabCount: nat, names: seq<string>)
      ensures Valid() && tabs.Length == tabCount && paneNames == names
      ensures fresh(tabs) && fresh(panes)
      ensures forall k | 0 <= k < tabCount :: !tabs[k]
      ensures forall k | 0 <= k < |names| :: !panes[k]
    {
      tabs := new bool[tabCount](_ => false);
      panes := new bool[|names|](_ => false);
      paneNames := names;
    }

    /** `list.forEach(x => x.classList.remove('active'))`. */
    static method ClearAll(flags: array<bool>)
      modifies flags
      ensures forall k | 0 <= k < flags.Length :: !flags[k]
    {
      var j := 0;
      while j < flags.Length
        invariant 0 <= j <= flags.Length
        invariant forall k | 0 <= k < j :: !flags[k]
      {
        flags[j] := false;
        j := j + 1;
      }
    }

    /** Every tab button loses `active`, then the clicked one gains it. */
    method SelectTab(i: nat)
      requires Valid() && i < tabs.Length
      modifies tabs
      ensures OnlyAt(tabs[..], Some(i))
    {
      ClearAll(tabs);
      tabs[i] := true;
    }

    /** Every pane loses `active`, then the first one answering to `name` gains it, if any. */
    method ShowPane(name: string) returns (shown: Option<nat>)
      requires Valid()
      modifies panes
      ensures shown == FirstIndex(paneNames, name)
      ensures OnlyAt(panes[..], shown)
    {
      ClearAll(panes);
      shown := FirstIndex(paneNames, name);
      if shown.Some? {
        panes[shown.value] := true;
      }
    }

    /**
     * A panel-tab click: the clicked tab alone is active, and among the
     * contents only `<tabId>-content`, when the page has it.
     */
    method ClickPanelTab(i: nat, tabId: string) returns (shown: Option<nat>)
      requires Valid() && i < tabs.Length
      modifies tabs, panes
      ensures OnlyAt(tabs[..], Some(i))
      ensures shown == FirstIndex(paneNames, tabId + "-content")
      ensures OnlyAt(panes[..], shown)
    {
      SelectTab(i);
      shown := ShowPane(tabId + "-content");
    }

    /**
     * An auth-tab click: the clicked tab alone is active and the first
     * `<tabName>-form` alone is shown. A tab naming no form throws after
     * every form was hidden.
     */
    method ClickAuthTab(i: nat, tabName: string) returns (r: Result<nat, TypeError>)
      requires Valid() && i < tabs.Length
      modifies tabs, panes
      ensures OnlyAt(tabs[..], Some(i))
      ensures r.Err? <==> FirstIndex(paneNames, tabName + "-form").None?
      ensures r.Ok? ==> Some(r.value) == FirstIndex(paneNames, tabName + "-form")
      ensures OnlyAt(panes[..], FirstIndex(paneNames, tabName + "-form"))
    {
      SelectTab(i);
      var shown := ShowPane(tabName + "-form");
      if shown.None? {
        return Err(TypeError);
      }
      r := Ok(shown.value);
    }
  }

  /** After any click exactly one tab is active and at most one pane. */
  lemma OneActive(tabs: seq<bool>, i: nat, panes: seq<bool>, shown: Option<nat>)
    requires i < |tabs| && OnlyAt(tabs, Some(i)) && OnlyAt(panes, shown)
    ensures CountTrue(tabs) == 1
    ensures CountTrue(panes) <= 1
  {
    OnlyAtCount(tabs, Some(i));
    OnlyAtCount(panes, shown);
  }
}
