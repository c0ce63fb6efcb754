/**
The paged menu of one player. A callback is a number; what it does to the menu is a script of
menu commands given by a behaviour. What is sent to the client is the drawn lines, the keys it
may press and the page; the words around them are left out.
*/
module Menus {
  import opened Options

  const PAGE_OPTION: int := 7
  const TWO_31: int := 0x8000_0000
  const TWO_32: int := 0x1_0000_0000

  type Callback = nat

  datatype Item = Item(info: int, text: string, disabled: bool, extra: int)

  /** The page is -1 while the menu is closed. */
  datatype Menu = Menu(text: string, data: seq<Item>, page: int, exit: bool, func: Option<Callback>)

  /** What the client is sent; slot s stands for key s + 1. */
  datatype Screen = Screen(lines: seq<Item>, slots: set<int>, page: int, pageCount: int)

  datatype Command =
    | Create(title: string, exit: bool, func: Option<Callback>)
    | AddItem(item: Item)
    | AddList(list: seq<string>)
    | Show
    | Hide

  type Behaviour = (Callback, Item) -> seq<Command>

  // ---------- pages ----------

  predicate Open(m: Menu)
  {
    m.page != -1
  }

  predicate OnPage(m: Menu)
  {
    m.page == 0 || (m.page > 0 && m.page * PAGE_OPTION < |m.data|)
  }

  /** The page is -1 or a page that exists; page 0 always does. */
  predicate PageValid(m: Menu)
  {
    Open(m) ==> OnPage(m)
  }

  /** The menu after page has been asked for. */
  function Displayed(m: Menu, page: int): Menu
  {
    if page < 0 then m.(page := if m.exit then -1 else 0)
    else m.(page := if page * PAGE_OPTION >= |m.data| then 0 else page)
  }

  /** The items on the page. */
  function Lines(m: Menu): seq<Item>
    requires OnPage(m)
  {
    var start := m.page * PAGE_OPTION;
    if start + PAGE_OPTION > |m.data| then m.data[start..] else m.data[start..start + PAGE_OPTION]
  }

  function PageCount(n: nat): int
  {
    if n > PAGE_OPTION then n / PAGE_OPTION + (if n % PAGE_OPTION != 0 then 1 else 0) else 1
  }

  function LineSlots(n: nat): set<int>
  {
    if n == 0 then {} else LineSlots(n - 1) + {n - 1}
  }

  /** A line for every item of the page, key 0 always, key 9 if there is a next page. */
  function Slots(m: Menu): set<int>
    requires OnPage(m)
  {
    {9} + LineSlots(|Lines(m)|) + (if m.page * PAGE_OPTION + |Lines(m)| != |m.data| then {8} else {})
  }

  function ScreenOf(m: Menu): Screen
    requires OnPage(m)
  {
    Screen(Lines(m), Slots(m), m.page, PageCount(|m.data|))
  }

  // ---------- commands and keys ----------

  function ListItems(list: seq<string>, n: nat): seq<Item>
    requires n <= |list|
  {
    if n == 0 then [] else ListItems(list, n - 1) + [Item(n - 1, list[n - 1], false, 0)]
  }

  function Do(m: Menu, c: Command): Menu
  {
    match c
    case Create(title, exit, func) => Menu(title, [], -1, exit, func)
    case AddItem(item) => m.(data := m.data + [item])
    case AddList(list) => m.(data := ListItems(list, |list|))
    case Show => if |m.data| > 0 then Displayed(m, 0) else m
    case Hide => m.(page := -1)
  }

  function DoAll(m: Menu, cs: seq<Command>): Menu
    decreases |cs|
  {
    if cs == [] then m else DoAll(Do(m, cs[0]), cs[1..])
  }

  /** What the client is doing when the key arrives. */
  datatype Client = NoPlayer | OtherMenu | Free

  datatype Outcome = Outcome(handled: bool, menu: Menu, called: Option<Item>)

  function ToUnsigned(n: int): int
  {
    n % TWO_32
  }

  /** The item a key stands for, whether or not it is drawn. */
  function Selected(m: Menu, key: int): Option<Item>
  {
    var index := ToUnsigned(key + m.page * PAGE_OPTION - 1);
    if index < |m.data| then Some(m.data[index]) else None
  }

  function AfterKey(m: Menu, key: int, client: Client, run: Behaviour): Outcome
  {
    if !Open(m) || client.NoPlayer? then Outcome(false, m, None)
    else if client.OtherMenu? then Outcome(false, m.(page := -1), None)
    else if key == 9 then Outcome(true, Displayed(m, m.page + 1), None)
    else if key == 10 then Outcome(true, Displayed(m, m.page - 1), None)
    else
      var hidden := m.(page := -1);
      match Selected(m, key)
      case None => Outcome(true, m, None)
      case Some(item) =>
        if m.func.None? then Outcome(true, hidden, None)
        else Outcome(true, DoAll(hidden, run(m.func.value, item)), Some(item))
  }

  class CMenu {
    var text: string
    var data: seq<Item>
    var page: int
    var exit: bool
    var func: Option<Callback>
    /** What the client was sent last. */
    var screen: Option<Screen>

    ghost function View(): Menu
      reads this
    {
      Menu(text, data, page, exit, func)
    }

    constructor ()
      ensures View() == Menu("", [], 0, false, None) && screen == None
    {
      text, data, page, exit, func, screen := "", [], 0, false, None, None;
    }

    method Clear()
      modifies this
      ensures View() == Menu("", [], -1, false, None) && screen == old(screen)
    {
      text, data, page, exit, func := "", [], -1, false, None;
    }

    method Create(title: string, exit: bool, callback: Option<Callback>)
      modifies this
      ensures View() == Do(old(View()), Command.Create(title, exit, callback)) && screen == old(screen)
    {
      Clear();
      text := title;
      page := -1;
      this.exit := exit;
      func := callback;
    }

    method AddItem(item: Item)
      modifies this`data
      ensures View() == Do(old(View()), Command.AddItem(item))
    {
      data := data + [item];
    }

    method AddList(list: seq<string>)
      modifies this`data
      ensures View() == Do(old(View()), Command.AddList(list))
    {
      data := [];
      for i := 0 to |list|
        invariant data == ListItems(list, i)
      {
        AddItem(Item(i, list[i], false, 0));
      }
    }

    method Show()
      modifies this
      ensures View() == Do(old(View()), Command.Show)
      ensures screen == if |data| > 0 then Some(ScreenOf(View())) else old(screen)
    {
      if |data| != 0 {
        Display(0);
      }
    }

    method Hide()
      modifies this
      ensures View() == Do(old(View()), Command.Hide) && screen == None
    {
      page := -1;
      screen := None;
    }

    /** The client is sent the page unless it has left the menu. */
    method Display(asked: int)
      modifies this
      ensures View() == Displayed(old(View()), asked)
      ensures screen == if Open(View()) then Some(ScreenOf(View())) else old(screen)
    {
      var shown := asked;
      if asked < 0 {
        shown := 0;
        page := 0;
        if exit {
          page := -1;
          return;
        }
      } else {
        page := asked;
      }
      var start := shown * PAGE_OPTION;
      if start >= |data| {
        start := 0;
        shown := 0;
        page := 0;
      }
      Draw(start, shown);
    }

    /** Sends the page that begins at start. */
    method Draw(start: nat, shown: int)
      requires shown == page && start == page * PAGE_OPTION && OnPage(View())
      modifies this`screen
      ensures screen == Some(ScreenOf(View()))
    {
      var pageCount := if |data| > PAGE_OPTION
        then |data| / PAGE_OPTION + (if |data| % PAGE_OPTION != 0 then 1 else 0) else 1;
      var end := start + PAGE_OPTION;
      if end > |data| {
        end := |data|;
      }
      var lines, slots := DrawLines(start, end);
      if end != |data| {
        slots := slots + {8};
      }
      assert lines == Lines(View());
      assert slots == Slots(View());
      screen := Some(Screen(lines, slots, shown, pageCount));
    }

    /** The lines from start to end, one slot each besides that of key 0. */
    method DrawLines(start: nat, end: nat) returns (lines: seq<Item>, slots: set<int>)
      requires start <= end <= |data|
      ensures lines == data[start..end] && slots == {9} + LineSlots(end - start)
    {
      slots := {9};
      lines := [];
      var bitSum: nat := 0;
      for b := start to end
        invariant bitSum == b - start && lines == data[start..b] && slots == {9} + LineSlots(bitSum)
      {
        slots := slots + {bitSum};
        bitSum := bitSum + 1;
        lines := lines + [data[b]];
        assert data[start..b + 1] == data[start..b] + [data[b]];
      }
    }

    method Perform(c: Command)
      modifies this
      ensures View() == Do(old(View()), c)
    {
      match c
      case Create(title, exit, callback) => Create(title, exit, callback);
      case AddItem(item) => AddItem(item);
      case AddList(list) => AddList(list);
      case Show => Show();
      case Hide => Hide();
    }

    /** Calls a callback: the commands of its script, in order. */
    method Call(commands: seq<Command>)
      modifies this
      ensures View() == DoAll(old(View()), commands)
    {
      for i := 0 to |commands|
        invariant DoAll(View(), commands[i..]) == DoAll(old(View()), commands)
      {
        assert commands[i..][1..] == commands[i + 1..];
        Perform(commands[i]);
      }
      assert commands[|commands|..] == [];
    }

    method Handle(key: int, client: Client, run: Behaviour) returns (handled: bool, called: Option<Item>)
      modifies this
      ensures Outcome(handled, View(), called) == AfterKey(old(View()), key, client, run)
    {
      called := None;
      if page != -1 {
        if !client.NoPlayer? {
          if client.Free? {
            if key == 9 {
              page := page + 1;
              Display(page);
            } else if key == 10 {
              page := page - 1;
              Display(page);
            } else {
              var itemIndex := ToUnsigned(key + page * PAGE_OPTION - 1);
              if itemIndex < |data| {
                Hide();
                if func.Some? {
                  called := Some(data[itemIndex]);
                  Call(run(func.value, data[itemIndex]));
                }
              }
            }
            return true, called;
          } else {
            page := -1;
          }
        }
      }
      return false, None;
    }
  }

  // ---------- the page always exists ----------

  /** A list leaves no page open that it does not have. */
  predicate ListFits(m: Menu, c: Command)
  {
    c.AddList? ==> m.page <= 0 || m.page * PAGE_OPTION < |c.list|
  }

  lemma {:induction false} ListLength(list: seq<string>, n: nat)
    requires n <= |list|
    ensures |ListItems(list, n)| == n
  {
    if n > 0 {
      ListLength(list, n - 1);
    }
  }

  /** A command keeps the page valid exactly unless it replaces the items by too short a list. */
  lemma DoKeepsPage(m: Menu, c: Command)
    requires PageValid(m)
    ensures PageValid(Do(m, c)) <==> ListFits(m, c)
  {
    if c.AddList? {
      ListLength(c.list, |c.list|);
    }
  }

  ghost predicate ListsFit(m: Menu, cs: seq<Command>)
    decreases |cs|
  {
    cs == [] || (ListFits(m, cs[0]) && ListsFit(Do(m, cs[0]), cs[1..]))
  }

  lemma {:induction false} DoAllKeepsPage(m: Menu, cs: seq<Command>)
    requires PageValid(m) && ListsFit(m, cs)
    ensures PageValid(DoAll(m, cs))
    decreases |cs|
  {
    if cs != [] {
      DoKeepsPage(m, cs[0]);
      DoAllKeepsPage(Do(m, cs[0]), cs[1..]);
    }
  }

  datatype Event = Command(command: Command) | Press(key: int, client: Client)

  /** A session: the menu, the Show commands given, in callbacks too, and the callbacks made. */
  datatype Session = Session(menu: Menu, shows: nat, calls: nat)

  function Shows(cs: seq<Command>): nat
    decreases |cs|
  {
    if cs == [] then 0 else (if cs[0].Show? then 1 else 0) + Shows(cs[1..])
  }

  /** The commands of an event: its own, or those of the callback it leads to. */
  function Script(m: Menu, e: Event, run: Behaviour): seq<Command>
  {
    match e
    case Command(c) => [c]
    case Press(key, client) =>
      var o := AfterKey(m, key, client, run);
      if o.called.Some? && m.func.Some? then run(m.func.value, o.called.value) else []
  }

  function Step(s: Session, e: Event, run: Behaviour): Session
  {
    match e
    case Command(c) => Session(Do(s.menu, c), s.shows + Shows([c]), s.calls)
    case Press(key, client) =>
      var o := AfterKey(s.menu, key, client, run);
      Session(o.menu, s.shows + Shows(Script(s.menu, e, run)), s.calls + (if o.called.Some? then 1 else 0))
  }

  function Play(m: Menu, es: seq<Event>, run: Behaviour): Session
  {
    if es == [] then Session(m, 0, 0) else Step(Play(m, es[..|es| - 1], run), es[|es| - 1], run)
  }

  /** No list is too short for the page that is open, in callbacks neither. */
  ghost predicate Fits(m: Menu, es: seq<Event>, run: Behaviour)
  {
    es == [] ||
    var before, e := es[..|es| - 1], es[|es| - 1];
    Fits(m, before, run) &&
    var now := Play(m, before, run).menu;
    ListsFit(if e.Press? then now.(page := -1) else now, Script(now, e, run))
  }

  lemma StepKeepsPage(s: Session, e: Event, run: Behaviour)
    requires PageValid(s.menu)
    requires ListsFit(if e.Press? then s.menu.(page := -1) else s.menu, Script(s.menu, e, run))
    ensures PageValid(Step(s, e, run).menu)
  {
    match e
    case Command(c) =>
      assert [c][0] == c;
      DoKeepsPage(s.menu, c);
    case Press(key, client) =>
      DoAllKeepsPage(s.menu.(page := -1), Script(s.menu, e, run));
  }

  /** In a session the page is always -1 or one that exists. */
  lemma {:induction false} PageAlwaysValid(m: Menu, es: seq<Event>, run: Behaviour)
    requires PageValid(m) && Fits(m, es, run)
    ensures PageValid(Play(m, es, run).menu)
  {
    if es != [] {
      PageAlwaysValid(m, es[..|es| - 1], run);
      StepKeepsPage(Play(m, es[..|es| - 1], run), es[|es| - 1], run);
    }
  }

  // ---------- one callback for every Show ----------

  function Opened(m: Menu): nat
  {
    if Open(m) then 1 else 0
  }

  lemma {:induction false} OnlyShowOpens(m: Menu, cs: seq<Command>)
    ensures Opened(DoAll(m, cs)) <= Opened(m) + Shows(cs)
    decreases |cs|
  {
    if cs != [] {
      OnlyShowOpens(Do(m, cs[0]), cs[1..]);
    }
  }

  lemma StepPays(s: Session, e: Event, run: Behaviour)
    ensures var t := Step(s, e, run);
            t.calls + Opened(t.menu) + s.shows <= s.calls + Opened(s.menu) + t.shows
  {
    match e
    case Command(c) =>
      assert [c][0] == c && [c][1..] == [];
    case Press(key, client) =>
      OnlyShowOpens(s.menu.(page := -1), Script(s.menu, e, run));
  }

  /** Over any session there are no more callbacks than Shows, one more if the menu was open
      at the start; so no Show leads to two callbacks, even if a callback rebuilds the menu. */
  lemma {:induction false} CallsPaidByShows(m: Menu, es: seq<Event>, run: Behaviour)
    ensures var s := Play(m, es, run);
            s.calls + Opened(s.menu) <= s.shows + Opened(m)
  {
    if es != [] {
      CallsPaidByShows(m, es[..|es| - 1], run);
      StepPays(Play(m, es[..|es| - 1], run), es[|es| - 1], run);
    }
  }

  // ---------- keys ----------

  /** A key other than Next and Back stands for the item that far behind the page's first one. */
  lemma SelectedIs(m: Menu, key: int)
    requires PageValid(m) && Open(m) && |m.data| <= TWO_31
    requires -TWO_31 <= key + m.page * PAGE_OPTION - 1 < TWO_31
    ensures var index := key + m.page * PAGE_OPTION - 1;
            Selected(m, key) == if 0 <= index < |m.data| then Some(m.data[index]) else None
  {
  }

  lemma {:induction false} LineSlotsAre(n: nat, s: int)
    ensures s in LineSlots(n) <==> 0 <= s < n
  {
    if n > 0 {
      LineSlotsAre(n - 1, s);
    }
  }

  /** Keys 1 to 7 stand for the lines drawn and for nothing else; disabled lines are no exception. */
  lemma DrawnKeys(m: Menu, key: int)
    requires PageValid(m) && Open(m) && |m.data| <= TWO_31 - PAGE_OPTION && 1 <= key <= 7
    ensures Selected(m, key) == if key <= |Lines(m)| then Some(Lines(m)[key - 1]) else None
    ensures key - 1 in ScreenOf(m).slots <==> key <= |Lines(m)|
  {
    SelectedIs(m, key);
    LineSlotsAre(|Lines(m)|, key - 1);
  }

  /** A pressed line: the menu closes and the callback gets exactly that line's item. */
  lemma PressedLine(m: Menu, key: int, run: Behaviour)
    requires PageValid(m) && Open(m) && |m.data| <= TWO_31 - PAGE_OPTION
    requires 1 <= key <= |Lines(m)| && m.func.Some?
    ensures AfterKey(m, key, Free, run) ==
            Outcome(true, DoAll(m.(page := -1), run(m.func.value, Lines(m)[key - 1])), Some(Lines(m)[key - 1]))
  {
    DrawnKeys(m, key);
  }

  // ---------- Next ----------

  function NextTimes(m: Menu, n: nat): Menu
  {
    if n == 0 then m
    else
      var before := NextTimes(m, n - 1);
      Displayed(before, before.page + 1)
  }

  lemma LastPage(n: nat, page: nat)
    ensures page == 0 || page * PAGE_OPTION < n <==> page < PageCount(n)
  {
  }

  /** The page after n presses of Next, counted round. */
  lemma {:induction false} NextGoesRound(m: Menu, n: nat)
    requires PageValid(m) && Open(m)
    ensures NextTimes(m, n) == m.(page := (m.page + n) % PageCount(|m.data|))
    ensures PageValid(NextTimes(m, n)) && Open(NextTimes(m, n))
  {
    var count := PageCount(|m.data|);
    if n == 0 {
      LastPage(|m.data|, m.page);
      SmallMod(m.page, count);
    } else {
      NextGoesRound(m, n - 1);
      var page := NextTimes(m, n - 1).page;
      LastPage(|m.data|, page);
      LastPage(|m.data|, page + 1);
      ModNext(m.page + n - 1, count);
    }
  }

  lemma SmallMod(x: int, m: int)
    requires 0 <= x < m
    ensures x % m == x
  {
  }

  lemma ModNext(x: nat, m: int)
    requires m > 0
    ensures 0 <= x % m < m && (x + 1) % m == if x % m + 1 < m then x % m + 1 else 0
  {
    var q, r := x / m, x % m;
    assert x == q * m + r;
    if r + 1 < m {
      DivIs(x + 1, m, q, r + 1);
    } else {
      assert x + 1 == (q + 1) * m;
      DivIs(x + 1, m, q + 1, 0);
    }
  }

  lemma DivIs(x: int, m: int, q: int, r: int)
    requires m > 0 && 0 <= r < m && x == q * m + r
    ensures x % m == r
  {
    var d := q - x / m;
    assert d * m == x % m - r;
    NoMultiple(d, m);
  }

  lemma NoMultiple(d: int, m: int)
    requires m > 0 && -m < d * m < m
    ensures d == 0
  {
    if d >= 1 {
      AtLeastOnce(d, m);
    } else if d <= -1 {
      AtLeastOnce(-d, m);
    }
  }

  lemma AtLeastOnce(d: int, m: int)
    requires m > 0 && d >= 1
    ensures d * m >= m && (-d) * m <= -m
  {
  }

  // ---------- what the commands leave ----------

  lemma {:induction false} ListItemsAre(list: seq<string>, n: nat)
    requires n <= |list|
    ensures |ListItems(list, n)| == n
    ensures forall k :: 0 <= k < n ==> ListItems(list, n)[k] == Item(k, list[k], false, 0)
  {
    if n > 0 {
      ListItemsAre(list, n - 1);
    }
  }

  /** A new menu that is given a list and shown: it is open on its first page with the list's texts
      as items, numbered from 0, unless the list is empty. */
  lemma NewMenuShown(m: Menu, title: string, exit: bool, func: Option<Callback>, list: seq<string>)
    ensures var r := DoAll(m, [Command.Create(title, exit, func), Command.AddList(list), Command.Show]);
            && r.text == title && r.exit == exit && r.func == func && |r.data| == |list|
            && (forall k :: 0 <= k < |list| ==> r.data[k].info == k && r.data[k].text == list[k] && !r.data[k].disabled)
            && r.page == if list == [] then -1 else 0
  {
    ListItemsAre(list, |list|);
    var x, y, z := Command.Create(title, exit, func), Command.AddList(list), Command.Show;
    assert [x, y, z][1..] == [y, z] && [y, z][1..] == [z] && [z][1..] == [];
    assert DoAll(m, [x, y, z]) == DoAll(Do(m, x), [y, z]);
    assert DoAll(Do(m, x), [y, z]) == DoAll(Do(Do(m, x), y), [z]);
    assert DoAll(Do(Do(m, x), y), [z]) == Do(Do(Do(m, x), y), z);
  }

  // ---------- what closes a menu ----------

  /** Back on the first page closes the menu exactly if it has an exit; on any other page it goes
      one page back, and Next never closes a menu. */
  lemma BackCloses(m: Menu, run: Behaviour)
    requires PageValid(m) && Open(m)
    ensures var back, next := AfterKey(m, 10, Free, run).menu, AfterKey(m, 9, Free, run).menu;
            && (!Open(back) <==> m.page == 0 && m.exit)
            && back.page == (if m.page > 0 then m.page - 1 else if m.exit then -1 else 0)
            && Open(next)
  {
    LastPage(|m.data|, m.page);
    if m.page > 0 {
      LastPage(|m.data|, m.page - 1);
    }
  }

  /** A key is taken exactly by an open menu of a client who has no other menu; another menu of the
      client closes this one, and no key does anything to a closed menu or without a client. */
  lemma KeyTaken(m: Menu, key: int, client: Client, run: Behaviour)
    ensures var o := AfterKey(m, key, client, run);
            && (o.handled <==> Open(m) && client == Free)
            && (!o.handled ==> o.called == None)
            && (!Open(m) || client == NoPlayer ==> o.menu == m)
            && (client == OtherMenu ==> !Open(o.menu) && o.menu.data == m.data)
  {
  }

  // ---------- the keys that are offered ----------

  /** The screen offers the key: a drawn line, Next before the last page, and always Back. */
  ghost predicate Offered(m: Menu, key: int)
  {
    PageValid(m) && Open(m) && key - 1 in ScreenOf(m).slots
  }

  function PressAll(m: Menu, keys: seq<int>, run: Behaviour): Menu
    decreases |keys|
  {
    if keys == [] then m else PressAll(AfterKey(m, keys[0], Free, run).menu, keys[1..], run)
  }

  /** Every key is offered by the screen at which it is pressed. */
  ghost predicate AllOffered(m: Menu, keys: seq<int>, run: Behaviour)
    decreases |keys|
  {
    keys == [] || (Offered(m, keys[0]) && AllOffered(AfterKey(m, keys[0], Free, run).menu, keys[1..], run))
  }

  lemma OneKey(m: Menu, key: int, keys: seq<int>, run: Behaviour)
    ensures PressAll(m, [key] + keys, run) == PressAll(AfterKey(m, key, Free, run).menu, keys, run)
    ensures AllOffered(m, [key] + keys, run) <==>
              Offered(m, key) && AllOffered(AfterKey(m, key, Free, run).menu, keys, run)
  {
    assert ([key] + keys)[1..] == keys;
  }

  lemma {:induction false} LineSlotsLess(n: nat, s: int)
    requires s >= n
    ensures s !in LineSlots(n)
  {
    if n > 0 {
      LineSlotsLess(n - 1, s);
    }
  }

  /** Next is offered exactly before the last page, and then goes one page on. */
  lemma NextOffered(m: Menu, run: Behaviour)
    requires PageValid(m) && Open(m)
    ensures Offered(m, 9) <==> m.page + 1 < PageCount(|m.data|)
    ensures m.page + 1 < PageCount(|m.data|) ==> AfterKey(m, 9, Free, run).menu == m.(page := m.page + 1)
  {
    LineSlotsLess(|Lines(m)|, 8);
    LastPage(|m.data|, m.page);
    LastPage(|m.data|, m.page + 1);
  }

  lemma BackOffered(m: Menu, run: Behaviour)
    requires PageValid(m) && Open(m) && m.page > 0
    ensures Offered(m, 10) && AfterKey(m, 10, Free, run).menu == m.(page := m.page - 1)
  {
    LastPage(|m.data|, m.page);
    LastPage(|m.data|, m.page - 1);
  }

  /** From any open page every page can be reached by keys that the screens offer: Next towards
      higher pages, Back towards lower ones. */
  lemma {:induction false} PageReachable(m: Menu, t: nat, run: Behaviour) returns (keys: seq<int>)
    requires PageValid(m) && Open(m) && t < PageCount(|m.data|)
    ensures |keys| == if m.page < t then t - m.page else m.page - t
    ensures AllOffered(m, keys, run) && PressAll(m, keys, run) == m.(page := t)
    decreases if m.page < t then t - m.page else m.page - t
  {
    LastPage(|m.data|, m.page);
    if m.page == t {
      keys := [];
    } else {
      var key, page := if m.page < t then 9 else 10, if m.page < t then m.page + 1 else m.page - 1;
      if m.page < t {
        NextOffered(m, run);
      } else {
        BackOffered(m, run);
      }
      LastPage(|m.data|, page);
      var rest := PageReachable(m.(page := page), t, run);
      OneKey(m, key, rest, run);
      keys := [key] + rest;
    }
  }

  /** On its page an item's own key is offered and selects it. */
  lemma ItemOffered(m: Menu, i: nat, run: Behaviour)
    requires PageValid(m) && Open(m) && i < |m.data| <= TWO_31 - PAGE_OPTION
    requires m.page == i / PAGE_OPTION && m.func.Some?
    ensures var key := i % PAGE_OPTION + 1;
            Offered(m, key) && AfterKey(m, key, Free, run).called == Some(m.data[i])
  {
    LastPage(|m.data|, m.page);
    assert Lines(m)[i % PAGE_OPTION] == m.data[i];
    DrawnKeys(m, i % PAGE_OPTION + 1);
    PressedLine(m, i % PAGE_OPTION + 1, run);
  }

  lemma PageOf(m: Menu, i: nat)
    requires PageValid(m) && Open(m) && i < |m.data|
    ensures i / PAGE_OPTION < PageCount(|m.data|)
    ensures PageValid(m.(page := i / PAGE_OPTION)) && Open(m.(page := i / PAGE_OPTION))
  {
    LastPage(|m.data|, i / PAGE_OPTION);
    LastPage(|m.data|, m.page);
  }

  /** From any open page every item can be reached by offered keys alone, fewer than there are
      pages; its own key is then offered and selects it. */
  lemma EveryItemReachable(m: Menu, i: nat, run: Behaviour) returns (keys: seq<int>)
    requires PageValid(m) && Open(m) && i < |m.data| <= TWO_31 - PAGE_OPTION && m.func.Some?
    ensures |keys| < PageCount(|m.data|) && AllOffered(m, keys, run)
    ensures var there, key := PressAll(m, keys, run), i % PAGE_OPTION + 1;
            Offered(there, key) && AfterKey(there, key, Free, run).called == Some(m.data[i])
  {
    var page := i / PAGE_OPTION;
    PageOf(m, i);
    LastPage(|m.data|, m.page);
    keys := PageReachable(m, page, run);
    ItemOffered(m.(page := page), i, run);
  }
}
