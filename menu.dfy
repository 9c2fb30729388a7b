/** The custom-menu builder of WXApi/WXApi/WXMenu.py:21-118. A `WXMenu` keeps
    the list of top-level buttons it will publish and appends to it in place. */
module Menu {
  import opened Common

  /** The most top-level buttons the platform accepts. */
  const MaxButton := 3

  /** A button as the builder stores it: a link, a click key, or a parent
      holding a `sub_button` list. */
  datatype Button =
    | View(name: string, url: string)
    | Click(name: string, key: string)
    | Parent(name: string, subButtons: seq<Button>)

  datatype MenuError =
    | TooManyButtons   // more than MaxButton buttons
    | NoButtons        // publishing an empty menu
    | DuplicateName    // a top-level button of that name exists
    | InvalidMenu      // sub-buttons asked for but none given
    | NameTooLong
    | UrlTooLong

  /** The number of bytes of the UTF-8 encoding of `s`. */
  function Utf8Length(s: string): (n: nat)
    ensures |s| <= n <= 4 * |s|
  {
    if s == [] then 0
    else
      var c := s[0] as int;
      (if c < 0x80 then 1 else if c < 0x800 then 2 else if c < 0x10000 then 3 else 4) + Utf8Length(s[1..])
  }

  lemma {:induction false} Utf8LengthAscii(s: string)
    requires forall i :: 0 <= i < |s| ==> s[i] as int < 0x80
    ensures Utf8Length(s) == |s|
  {
    if s != [] {
      Utf8LengthAscii(s[1..]);
    }
  }

  /** `_check_name`: a top-level name takes at most 16 bytes, a sub-button's
      at most 40. */
  function CheckName(name: string, isSubButton: bool): (r: Result<(), MenuError>)
    ensures r.Ok? <==> Utf8Length(name) <= (if isSubButton then 40 else 16)
    ensures r.Err? ==> r.error == NameTooLong
  {
    if !isSubButton && Utf8Length(name) > 16 then Err(NameTooLong)
    else if isSubButton && Utf8Length(name) > 40 then Err(NameTooLong)
    else Ok(())
  }

  /** A name of at most four characters is always short enough for the top
      level, and one of at most ten for a sub-button. */
  lemma ShortNamesPass(name: string)
    ensures |name| <= 4 ==> CheckName(name, false).Ok?
    ensures |name| <= 10 ==> CheckName(name, true).Ok?
  {
  }

  /** Some button in `bs` is named `name`. */
  predicate NameIn(bs: seq<Button>, name: string) {
    exists i :: 0 <= i < |bs| && bs[i].name == name
  }

  /** Every button of `bs` is `b`. */
  predicate AllAre(bs: seq<Button>, b: Button) {
    forall i :: 0 <= i < |bs| ==> bs[i] == b
  }

  /** What `_add_button` as written returns and leaves stored, from the stored
      buttons `before`. The duplicate-name loop rebinds `button` to each stored
      button, so after it `button` is the last stored one, and that is what is
      appended or searched for sub-buttons; only on an empty menu is it the
      button given. The cap lets a fourth button in. */
  function AddResult(before: seq<Button>, name: string, button: Button, hasSubButton: bool)
    : (Result<(), MenuError>, seq<Button>)
  {
    if |before| > MaxButton then (Err(TooManyButtons), before)
    else if NameIn(before, name) then (Err(DuplicateName), before)
    else
      var bound := if before == [] then button else before[|before| - 1];
      if !hasSubButton then (Ok(()), before + [bound])
      else if bound.Parent? then (Ok(()), before)  // each sub-button only goes to the logging `_add_sub_button`
      else (Err(InvalidMenu), before)
  }

  /** As written, a menu only ever holds copies of its first button, and at
      most MaxButton + 1 of them. */
  lemma AddResultCopiesFirst(before: seq<Button>, name: string, button: Button, hasSubButton: bool)
    requires before != [] ==> AllAre(before, before[0])
    requires |before| <= MaxButton + 1
    ensures var after := AddResult(before, name, button, hasSubButton).1;
            |after| <= MaxButton + 1 && (after != [] ==> AllAre(after, after[0]))
            && (before != [] ==> after != [] && after[0] == before[0])
  {
  }

  /** As written, the cap refuses only a fifth button: a menu of three buttons,
      none of them named `name`, grows to four. */
  lemma AddResultLetsFourthIn(b: Button, name: string, button: Button)
    requires b.name != name
    ensures AddResult([b, b, b], name, button, false) == (Ok(()), [b, b, b, b])
  {
    assert !NameIn([b, b, b], name);
    assert [b, b, b][2] == b && [b, b, b] + [b] == [b, b, b, b];
  }

  /** What `_add_button` does when it appends the button it was given and
      refuses a button beyond MaxButton. */
  function AddIntended(before: seq<Button>, name: string, button: Button): (Result<(), MenuError>, seq<Button>)
  {
    if |before| >= MaxButton then (Err(TooManyButtons), before)
    else if NameIn(before, name) then (Err(DuplicateName), before)
    else (Ok(()), before + [button])
  }

  /** Buttons whose names are pairwise different. */
  predicate DistinctNames(bs: seq<Button>) {
    forall i, j :: 0 <= i < j < |bs| ==> bs[i].name != bs[j].name
  }

  /** The intended add keeps the menu publishable and its names distinct, and
      on success the given button is the last one. */
  lemma AddIntendedKeepsMenu(before: seq<Button>, button: Button)
    requires |before| <= MaxButton && DistinctNames(before)
    ensures var (r, after) := AddIntended(before, button.name, button);
            |after| <= MaxButton && DistinctNames(after)
            && (r.Ok? <==> |before| < MaxButton && !NameIn(before, button.name))
            && (r.Ok? ==> after[..|before|] == before && after[|before|] == button)
            && (r.Err? ==> after == before)
  {
    var (r, after) := AddIntended(before, button.name, button);
    if r.Ok? {
      forall i, j | 0 <= i < j < |after|
        ensures after[i].name != after[j].name
      {
        if j == |before| {
          assert !NameIn(before, button.name);
          assert before[i].name != button.name;
        }
      }
      assert after[..|before|] == before;
    }
  }

  class WXMenu {
    var buttons: seq<Button>

    /** `WXMenu()` without a current menu. */
    constructor ()
      ensures buttons == []
    {
      buttons := [];
    }

    /** `_add_button` */
    method AddButton(name: string, button: Button, hasSubButton: bool) returns (r: Result<(), MenuError>)
      modifies this
      ensures (r, buttons) == AddResult(old(buttons), name, button, hasSubButton)
    {
      if |buttons| > MaxButton {
        return Err(TooManyButtons);
      }
      var current := button;
      var i := 0;
      while i < |buttons|
        invariant 0 <= i <= |buttons|
        invariant buttons == old(buttons)
        invariant forall j :: 0 <= j < i ==> buttons[j].name != name
        invariant current == if i == 0 then button else buttons[i - 1]
      {
        current := buttons[i];
        if current.name == name {
          return Err(DuplicateName);
        }
        i := i + 1;
      }
      if !hasSubButton {
        buttons := buttons + [current];
        r := Ok(());
      } else if current.Parent? {
        r := Ok(());
      } else {
        r := Err(InvalidMenu);
      }
    }

    /** `_add_button` as the duplicate check and the cap intend. */
    method AddButtonIntended(name: string, button: Button) returns (r: Result<(), MenuError>)
      modifies this
      ensures (r, buttons) == AddIntended(old(buttons), name, button)
    {
      if |buttons| >= MaxButton {
        return Err(TooManyButtons);
      }
      var i := 0;
      while i < |buttons|
        invariant 0 <= i <= |buttons|
        invariant forall j :: 0 <= j < i ==> buttons[j].name != name
      {
        if buttons[i].name == name {
          return Err(DuplicateName);
        }
        i := i + 1;
      }
      buttons := buttons + [button];
      r := Ok(());
    }

    /** `create_view`: a link of more than 1024 encoded bytes is refused; with a
        parent name the button only goes to the logging `_add_sub_button`. */
    method CreateView(viewName: string, viewLink: string, buttonName: Option<string>) returns (r: Result<(), MenuError>)
      modifies this
      ensures Utf8Length(viewLink) > 1024 ==> r == Err(UrlTooLong) && buttons == old(buttons)
      ensures Utf8Length(viewLink) <= 1024 && buttonName.Some? ==> r == CheckName(viewName, true) && buttons == old(buttons)
      ensures Utf8Length(viewLink) <= 1024 && buttonName.None? && CheckName(viewName, false).Err? ==>
                r == Err(NameTooLong) && buttons == old(buttons)
      ensures Utf8Length(viewLink) <= 1024 && buttonName.None? && CheckName(viewName, false).Ok? ==>
                (r, buttons) == AddResult(old(buttons), viewName, View(viewName, viewLink), false)
    {
      if Utf8Length(viewLink) > 1024 {
        return Err(UrlTooLong);
      }
      var button := View(viewName, viewLink);
      if buttonName.Some? {
        r := CheckName(viewName, true);
      } else {
        r := CheckName(viewName, false);
        if r.Ok? {
          r := AddButton(viewName, button, false);
        }
      }
    }

    /** `create_click` */
    method CreateClick(clickName: string, clickKey: string, buttonName: Option<string>) returns (r: Result<(), MenuError>)
      modifies this
      ensures buttonName.Some? ==> r == CheckName(clickName, true) && buttons == old(buttons)
      ensures buttonName.None? && CheckName(clickName, false).Err? ==> r == Err(NameTooLong) && buttons == old(buttons)
      ensures buttonName.None? && CheckName(clickName, false).Ok? ==>
                (r, buttons) == AddResult(old(buttons), clickName, Click(clickName, clickKey), false)
    {
      var button := Click(clickName, clickKey);
      if buttonName.Some? {
        r := CheckName(clickName, true);
      } else {
        r := CheckName(clickName, false);
        if r.Ok? {
          r := AddButton(clickName, button, false);
        }
      }
    }

    /** `to_json_object` (and the checks of `__str__`, `__repr__`): the menu to
        publish, when it has one to three buttons. */
    function ToJsonObject(): (r: Result<seq<Button>, MenuError>)
      reads this
      ensures r.Ok? <==> 1 <= |buttons| <= MaxButton
      ensures r.Ok? ==> r.value == buttons
      ensures |buttons| > MaxButton ==> r == Err(TooManyButtons)
    {
      if |buttons| < 1 then Err(NoButtons)
      else if |buttons| > MaxButton then Err(TooManyButtons)
      else Ok(buttons)
    }

    /** The loop of `__init__` over a current menu's buttons, each added under
        its own name; it stops at the first error. As written it keeps one copy
        of the first button per button read. */
    method Load(menu: seq<Button>) returns (r: Result<(), MenuError>)
      requires buttons == []
      modifies this
      ensures r.Ok? <==> |menu| <= MaxButton + 1 && forall k :: 0 < k < |menu| ==> menu[k].name != menu[0].name
      ensures r.Ok? ==> |buttons| == |menu| && (menu != [] ==> AllAre(buttons, menu[0]))
    {
      r := Ok(());
      var i := 0;
      while i < |menu|
        invariant 0 <= i <= |menu| && i <= MaxButton + 1
        invariant |buttons| == i && (i > 0 ==> AllAre(buttons, menu[0]))
        invariant forall k :: 0 < k < i ==> menu[k].name != menu[0].name
        invariant r == Ok(())
      {
        r := AddButton(menu[i].name, menu[i], false);
        if r.Err? {
          assert i == MaxButton + 1 || (i > 0 && menu[i].name == menu[0].name);
          return;
        }
        i := i + 1;
      }
    }
  }

  /** Four top-level clicks with distinct names all succeed as written, and
      leave four copies of the first button that cannot be published. */
  method FourClicksAsWritten() returns (added: seq<Result<(), MenuError>>, r: Result<seq<Button>, MenuError>)
    ensures added == [Ok(()), Ok(()), Ok(()), Ok(())]
    ensures r == Err(TooManyButtons)
  {
    var menu := new WXMenu();
    var first := Click("a", "ka");
    var a := menu.CreateClick("a", "ka", None);
    assert menu.buttons == [first];
    var b := menu.CreateClick("b", "kb", None);
    assert !NameIn([first], "b");
    assert menu.buttons == [first, first];
    var c := menu.CreateClick("c", "kc", None);
    assert !NameIn([first, first], "c");
    assert menu.buttons == [first, first, first];
    var d := menu.CreateClick("d", "kd", None);
    AddResultLetsFourthIn(first, "d", Click("d", "kd"));
    added := [a, b, c, d];
    r := menu.ToJsonObject();
  }

  /** With the intended cap and append, three buttons of distinct names are
      kept as given and can be published, and a fourth is refused. */
  method FourClicksIntended() returns (r: Result<seq<Button>, MenuError>, fourth: Result<(), MenuError>)
    ensures r == Ok([Click("a", "ka"), Click("b", "kb"), Click("c", "kc")])
    ensures fourth == Err(TooManyButtons)
  {
    var menu := new WXMenu();
    var a := menu.AddButtonIntended("a", Click("a", "ka"));
    assert menu.buttons == [Click("a", "ka")];
    var b := menu.AddButtonIntended("b", Click("b", "kb"));
    assert !NameIn([Click("a", "ka")], "b");
    assert menu.buttons == [Click("a", "ka"), Click("b", "kb")];
    var c := menu.AddButtonIntended("c", Click("c", "kc"));
    assert !NameIn([Click("a", "ka"), Click("b", "kb")], "c");
    assert menu.buttons == [Click("a", "ka"), Click("b", "kb"), Click("c", "kc")];
    fourth := menu.AddButtonIntended("d", Click("d", "kd"));
    r := menu.ToJsonObject();
  }
}
