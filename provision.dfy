/** The provisioning page: the form on which the user picks one wallet address
    for every account name a site asked for.

    `ProvisionPage` starts with every requested name bound to `""` and the
    form incomplete; each `AccountSelector` passes a non-empty choice up to
    the page, which records it and marks the form complete once every entry
    holds an address.  The submit button stays disabled until then, and a
    submit hands the whole account map to `onProvision`.  Rendering, styling
    and the list of addresses offered by the dropdown are not modelled. */
module Provision {

  /** The page's state: `accountMap` and the `formComplete` flag. */
  datatype FormState = FormState(accountMap: map<string, string>, formComplete: bool)

  /** What the page renders: the error for an empty account list, or the form
      with one selector per requested name and the submit button. */
  datatype View = InvalidAccounts | Form(selectors: seq<string>, submitDisabled: bool)

  /** One choice made in the dropdown of the selector for `name`. */
  datatype Selection = Selection(name: string, value: string)

  function NameSet(names: seq<string>): set<string> {
    set n | n in names
  }

  /** Every entry of the account map holds an address. */
  predicate Filled(m: map<string, string>) {
    forall k :: k in m ==> m[k] != ""
  }

  /** The state of a freshly created page for the requested names. */
  function Initial(names: seq<string>): FormState {
    FormState(map n | n in names :: "", false)
  }

  /** `ProvisionPage`'s `onChange(accountName)(accountAddress)`. */
  function Change(s: FormState, name: string, address: string): FormState {
    var m := s.accountMap[name := address];
    FormState(m, s.formComplete || Filled(m))
  }

  /** `AccountSelector`'s `_onChange`: an empty value is ignored. */
  function Select(s: FormState, sel: Selection): FormState {
    if |sel.value| > 0 then Change(s, sel.name, sel.value) else s
  }

  /** The choices `sels`, one after the other. */
  function SelectAll(s: FormState, sels: seq<Selection>): FormState
    decreases |sels|
  {
    if sels == [] then s else Select(SelectAll(s, sels[..|sels| - 1]), sels[|sels| - 1])
  }

  /** The page's output for the requested names and the current flag. */
  function Render(accounts: seq<string>, formComplete: bool): View {
    if |accounts| == 0 then InvalidAccounts else Form(accounts, !formComplete)
  }

  // ---------------------------------------------------------------------
  // Plain-object assignment as the code performs it
  // ---------------------------------------------------------------------

  /** The one key a plain object does not store: assigning a string to
      `obj["__proto__"]` calls the inherited accessor, which ignores it. */
  const Proto := "__proto__"

  /** `obj[key] = value` on a plain object, for a string `value`. */
  function ObjectSet(m: map<string, string>, key: string, value: string): map<string, string> {
    if key == Proto then m else m[key := value]
  }

  /** `defaultState` as the code builds it, through `ObjectSet`. */
  function InitialAsWritten(names: seq<string>): FormState {
    FormState(map n | n in names && n != Proto :: "", false)
  }

  /** `onChange` as the code performs it, through `ObjectSet`. */
  function ChangeAsWritten(s: FormState, name: string, address: string): FormState {
    var m := ObjectSet(s.accountMap, name, address);
    FormState(m, s.formComplete || Filled(m))
  }

  /** With the requested names `["__proto__", "a"]`, the code's page never
      stores `"__proto__"`, so choosing only `"a"` completes the form and the
      map handed to `onProvision` lacks a requested name; with every name
      stored, as `Initial` and `Change` do, the form is still incomplete. */
  lemma ProtoNameLeftUnchosen()
    ensures var names := [Proto, "a"];
      var t := ChangeAsWritten(InitialAsWritten(names), "a", "addr");
      && t.formComplete
      && Proto in names && Proto !in t.accountMap
      && !Change(Initial(names), "a", "addr").formComplete
  {
    var names := [Proto, "a"];
    assert Proto != "a";
    assert InitialAsWritten(names).accountMap == map["a" := ""];
    assert Proto in Initial(names).accountMap;
    assert Change(Initial(names), "a", "addr").accountMap[Proto] == "";
  }

  /** The `defaultState` object, filled name by name. */
  method DefaultState(names: seq<string>) returns (m: map<string, string>)
    ensures m.Keys == NameSet(names)
    ensures forall k :: k in m ==> m[k] == ""
  {
    m := map[];
    for i := 0 to |names|
      invariant m.Keys == NameSet(names[..i])
      invariant forall k :: k in m ==> m[k] == ""
    {
      assert names[..i + 1] == names[..i] + [names[i]];
      m := m[names[i] := ""];
    }
    assert names[..|names|] == names;
  }

  /** The `for…in` scan of `onChange`, which stops at the first empty entry. */
  method AllFilled(m: map<string, string>) returns (complete: bool)
    ensures complete == Filled(m)
  {
    var remaining := m.Keys;
    while remaining != {}
      invariant remaining <= m.Keys
      invariant forall k :: k in m && k !in remaining ==> m[k] != ""
      decreases remaining
    {
      var k :| k in remaining;
      if m[k] == "" {
        return false;
      }
      remaining := remaining - {k};
    }
    return true;
  }

  /** The initial map has exactly the requested names as keys, each bound to
      `""`, and the form starts incomplete. */
  lemma InitialHasExactlyTheNames(names: seq<string>)
    ensures Initial(names).accountMap.Keys == NameSet(names)
    ensures forall k :: k in Initial(names).accountMap ==> Initial(names).accountMap[k] == ""
    ensures !Initial(names).formComplete
  {
  }

  /** An empty account list renders the error instead of the form; otherwise
      there is one selector per name and the button is disabled exactly
      while the form is incomplete. */
  lemma RenderChecksAccounts(accounts: seq<string>, formComplete: bool)
    ensures Render(accounts, formComplete) == InvalidAccounts <==> accounts == []
    ensures accounts != [] ==> Render(accounts, formComplete) == Form(accounts, !formComplete)
  {
  }

  /** A choice with an empty value changes nothing. */
  lemma EmptySelectionIgnored(s: FormState, name: string)
    ensures Select(s, Selection(name, "")) == s
  {
  }

  /** Recording an address sets that name only; every other entry keeps its
      value, and no other key appears or disappears. */
  lemma ChangeSetsOnlyThatName(s: FormState, name: string, address: string)
    ensures var m := Change(s, name, address).accountMap;
      && m.Keys == s.accountMap.Keys + {name}
      && m[name] == address
      && forall k :: k in s.accountMap && k != name ==> m[k] == s.accountMap[k]
  {
  }

  /** After a change the form is complete if every entry is non-empty;
      otherwise the flag is left as it was, so it is never reset. */
  lemma ChangeCompletesWhenFilled(s: FormState, name: string, address: string)
    ensures var t := Change(s, name, address);
      && (Filled(t.accountMap) ==> t.formComplete)
      && (!Filled(t.accountMap) ==> t.formComplete == s.formComplete)
  {
  }

  /** Once complete, the form stays complete whatever is chosen next. */
  lemma {:induction false} CompleteNeverReset(s: FormState, sels: seq<Selection>)
    requires s.formComplete
    ensures SelectAll(s, sels).formComplete
    decreases |sels|
  {
    if sels != [] {
      CompleteNeverReset(s, sels[..|sels| - 1]);
    }
  }

  /** Driven by its selectors, the page keeps exactly the requested names as
      keys, and the form is complete exactly when every entry holds an address. */
  lemma {:induction false} CompleteIffFilled(names: seq<string>, sels: seq<Selection>)
    requires names != []
    requires forall i :: 0 <= i < |sels| ==> sels[i].name in names
    ensures SelectAll(Initial(names), sels).accountMap.Keys == NameSet(names)
    ensures SelectAll(Initial(names), sels).formComplete <==> Filled(SelectAll(Initial(names), sels).accountMap)
    decreases |sels|
  {
    if sels == [] {
      assert names[0] in Initial(names).accountMap;
    } else {
      var p := sels[..|sels| - 1];
      var sel := sels[|sels| - 1];
      CompleteIffFilled(names, p);
      var mid := SelectAll(Initial(names), p);
      if |sel.value| > 0 {
        var t := Change(mid, sel.name, sel.value);
        if mid.formComplete {
          assert forall k :: k in t.accountMap ==> t.accountMap[k] != "" by {
            forall k | k in t.accountMap ensures t.accountMap[k] != "" {
              if k != sel.name {
                assert k in mid.accountMap;
              }
            }
          }
        }
      }
    }
  }

  /** A name chosen at least once with a non-empty value holds an address afterwards. */
  lemma {:induction false} ChosenNameStaysFilled(s: FormState, sels: seq<Selection>, name: string)
    requires exists i :: 0 <= i < |sels| && sels[i].name == name && sels[i].value != ""
    ensures name in SelectAll(s, sels).accountMap && SelectAll(s, sels).accountMap[name] != ""
    decreases |sels|
  {
    var p := sels[..|sels| - 1];
    var sel := sels[|sels| - 1];
    if sel.name == name && sel.value != "" {
      ChosenNameSelected(SelectAll(s, p), sel);
    } else {
      var i :| 0 <= i < |sels| && sels[i].name == name && sels[i].value != "";
      assert i < |p| && p[i] == sels[i];
      ChosenNameStaysFilled(s, p, name);
    }
  }

  lemma ChosenNameSelected(s: FormState, sel: Selection)
    requires sel.value != ""
    ensures sel.name in Select(s, sel).accountMap && Select(s, sel).accountMap[sel.name] == sel.value
  {
  }

  /** Once every requested name has been chosen with a non-empty value, the
      form is complete and the button enabled. */
  lemma ChoosingEveryNameCompletes(names: seq<string>, sels: seq<Selection>)
    requires names != []
    requires forall i :: 0 <= i < |sels| ==> sels[i].name in names
    requires forall n :: n in names ==> exists i :: 0 <= i < |sels| && sels[i].name == n && sels[i].value != ""
    ensures SelectAll(Initial(names), sels).formComplete
  {
    CompleteIffFilled(names, sels);
    var t := SelectAll(Initial(names), sels);
    forall k | k in t.accountMap ensures t.accountMap[k] != "" {
      assert k in names;
      ChosenNameStaysFilled(Initial(names), sels, k);
    }
  }

  /** `ProvisionPage`'s state, which `onChange` updates in place. */
  class ProvisionPage {
    const accounts: seq<string>
    var accountMap: map<string, string>
    var formComplete: bool
    var provisioned: seq<map<string, string>>   // the calls of `props.onProvision`

    function State(): FormState
      reads this
    {
      FormState(accountMap, formComplete)
    }

    /** What the page shows now. */
    function Shown(): View
      reads this
    {
      Render(accounts, formComplete)
    }

    constructor (accounts: seq<string>)
      ensures this.accounts == accounts && State() == Initial(accounts) && provisioned == []
    {
      this.accounts := accounts;
      var m := DefaultState(accounts);
      assert m == Initial(accounts).accountMap;
      accountMap := m;
      formComplete := false;
      provisioned := [];
    }

    /** Only reachable through a selector, so `name` is one of the requested
        names (the closures exist only past the empty-list guard). */
    method OnChange(name: string, address: string)
      requires name in accounts
      modifies this
      ensures State() == Change(old(State()), name, address)
      ensures provisioned == old(provisioned)
    {
      accountMap := accountMap[name := address];
      var complete := AllFilled(accountMap);
      if complete {
        formComplete := true;
      }
    }

    /** A click on the submit button: disabled until the form is complete,
        then it passes the current account map to `onProvision`.  The button
        exists only when the list is not empty, and a submit goes through
        exactly when the page shows the form with the button enabled. */
    method Submit() returns (sent: bool)
      requires accounts != []
      modifies this
      ensures sent == formComplete
      ensures sent <==> Shown() == Form(accounts, false)
      ensures State() == old(State())
      ensures provisioned == old(provisioned) + (if sent then [accountMap] else [])
    {
      sent := formComplete;
      if sent {
        provisioned := provisioned + [accountMap];
      }
    }
  }

  /** One `AccountSelector`, with its own chosen address and error flag. */
  class AccountSelector {
    const accountName: string
    const page: ProvisionPage
    var address: string
    var validationError: bool

    /** Selectors are created for the requested names only. */
    constructor (accountName: string, page: ProvisionPage)
      requires accountName in page.accounts
      ensures this.accountName == accountName && this.page == page
      ensures address == "" && validationError
    {
      this.accountName := accountName;
      this.page := page;
      address := "";
      validationError := true;
    }

    /** `_onChange`: a non-empty value clears the error, is shown, and is
        passed up to the page; an empty one is ignored. */
    method OnSelect(value: string)
      requires accountName in page.accounts
      modifies this, page
      ensures page.State() == Select(old(page.State()), Selection(accountName, value))
      ensures page.provisioned == old(page.provisioned)
      ensures |value| > 0 ==> address == value && !validationError
      ensures |value| == 0 ==> address == old(address) && validationError == old(validationError)
    {
      if |value| > 0 {
        validationError := false;
        address := value;
        page.OnChange(accountName, value);
      }
    }
  }
}
