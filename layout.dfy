/** The application shell (components/Layout.tsx): the initials shown in the
    account badge, and the navigation entries of the sidebar and of the
    bottom bar, which depend only on the privilege flag and the active tab. */
module Layout {
  import opened Types

  // ---------------------------------------------------------------------
  // Characters
  // ---------------------------------------------------------------------

  /** The class `\s` of ECMAScript regular expressions: the WhiteSpace and
      LineTerminator code points. */
  predicate IsWhitespace(c: char)
  {
    var n := c as int;
    (0x09 <= n <= 0x0D) || n == 0x20 || n == 0xA0 || n == 0x1680 || (0x2000 <= n <= 0x200A)
    || n == 0x2028 || n == 0x2029 || n == 0x202F || n == 0x205F || n == 0x3000 || n == 0xFEFF
  }

  /** A member of the character class `[\s._-]` that names are split on. */
  predicate IsSeparator(c: char)
  {
    IsWhitespace(c) || c == '.' || c == '_' || c == '-'
  }

  /** `toUpperCase` restricted to ASCII: 'a'..'z' become 'A'..'Z', everything else is kept. */
  function UpperChar(c: char): (u: char)
    ensures !IsSeparator(c) ==> !IsSeparator(u)
  {
    if 'a' <= c <= 'z' then (c as int - 32) as char else c
  }

  function UpperAscii(s: string): (r: string)
    ensures |r| == |s|
    ensures forall i :: 0 <= i < |s| ==> r[i] == UpperChar(s[i])
  {
    if s == [] then [] else [UpperChar(s[0])] + UpperAscii(s[1..])
  }

  /** `s.slice(0, n)` for a non-negative `n`. */
  function Slice(s: string, n: nat): (r: string)
    ensures |r| <= n && r <= s
  {
    if |s| <= n then s else s[..n]
  }

  // ---------------------------------------------------------------------
  // Splitting a name into words
  // ---------------------------------------------------------------------

  /** Length of the longest prefix of `s` whose characters are all separators
      (`separators`) or all non-separators (`!separators`). */
  function RunLength(s: string, separators: bool): (n: nat)
    ensures n <= |s|
    ensures forall k :: 0 <= k < n ==> IsSeparator(s[k]) == separators
    ensures n < |s| ==> IsSeparator(s[n]) != separators
  {
    if s != [] && IsSeparator(s[0]) == separators then 1 + RunLength(s[1..], separators) else 0
  }

  /** `s.split(/[\s._-]+/)`: the pieces between maximal runs of separators.
      A leading or trailing run yields an empty first or last piece, and the
      empty string yields the single piece "". */
  function Split(s: string): (parts: seq<string>)
    ensures |parts| >= 1
    ensures forall i, k :: 0 <= i < |parts| && 0 <= k < |parts[i]| ==> !IsSeparator(parts[i][k])
    decreases |s|
  {
    var w := RunLength(s, false);
    if w == |s| then [s]
    else
      var rest := s[w..];
      var gap := RunLength(rest, true);
      [s[..w]] + Split(rest[gap..])
  }

  /** `parts.map(n => n[0]).join('')`: an empty piece has no first character
      and so contributes nothing. */
  function FirstChars(parts: seq<string>): string
  {
    if parts == [] then []
    else (if parts[0] == [] then [] else [parts[0][0]]) + FirstChars(parts[1..])
  }

  /** `parts.join('')`. */
  function Concat(parts: seq<string>): string
  {
    if parts == [] then [] else parts[0] + Concat(parts[1..])
  }

  /** Reference definition of initials: the characters that begin a word, in
      order. A non-separator begins a word when it is the first character or
      follows a separator (`boundary` says whether the previous one was). */
  function WordStartsAfter(s: string, boundary: bool): (r: string)
    ensures |r| <= |s|
    ensures forall i :: 0 <= i < |r| ==> !IsSeparator(r[i])
  {
    if s == [] then []
    else (if boundary && !IsSeparator(s[0]) then [s[0]] else []) + WordStartsAfter(s[1..], IsSeparator(s[0]))
  }

  function WordStarts(s: string): string
  {
    WordStartsAfter(s, true)
  }

  /** Reference definition: the non-separator characters of `s`, in order. */
  function WordCharacters(s: string): string
  {
    if s == [] then [] else (if IsSeparator(s[0]) then [] else [s[0]]) + WordCharacters(s[1..])
  }

  /** Inside a word no character begins a word. */
  lemma {:induction false} WordStartsSkipWord(s: string, k: nat)
    requires k <= |s|
    requires forall j :: 0 <= j < k ==> !IsSeparator(s[j])
    ensures WordStartsAfter(s, false) == WordStartsAfter(s[k..], false)
  {
    if k > 0 {
      WordStartsSkipWord(s[1..], k - 1);
      assert s[1..][k - 1..] == s[k..];
    }
  }

  /** A run of separators contributes nothing and leaves a word boundary behind it. */
  lemma {:induction false} WordStartsSkipGap(s: string, k: nat, boundary: bool)
    requires 0 < k <= |s|
    requires forall j :: 0 <= j < k ==> IsSeparator(s[j])
    ensures WordStartsAfter(s, boundary) == WordStartsAfter(s[k..], true)
  {
    if k > 1 {
      WordStartsSkipGap(s[1..], k - 1, true);
      assert s[1..][k - 1..] == s[k..];
    }
  }

  lemma FirstCharsCons(p: string, parts: seq<string>)
    ensures FirstChars([p] + parts) == (if p == [] then [] else [p[0]]) + FirstChars(parts)
  {
    assert ([p] + parts)[1..] == parts;
  }

  /** The initials taken piece by piece after `split` are exactly the characters
      that begin a word. */
  lemma {:induction false} InitialsAreWordStarts(s: string)
    ensures FirstChars(Split(s)) == WordStarts(s)
    decreases |s|
  {
    var w := RunLength(s, false);
    if w == |s| {
      if s != [] {
        WordStartsSkipWord(s[1..], |s| - 1);
      }
    } else {
      var rest := s[w..];
      var gap := RunLength(rest, true);
      InitialsAreWordStarts(rest[gap..]);
      WordStartsSkipGap(rest, gap, w == 0);
      FirstCharsCons(s[..w], Split(rest[gap..]));
      if w > 0 {
        WordStartsSkipWord(s[1..], w - 1);
        assert s[1..][w - 1..] == rest;
      }
    }
  }

  lemma {:induction false} WordCharactersOfWord(s: string, k: nat)
    requires k <= |s|
    requires forall j :: 0 <= j < k ==> !IsSeparator(s[j])
    ensures WordCharacters(s) == s[..k] + WordCharacters(s[k..])
  {
    if k > 0 {
      WordCharactersOfWord(s[1..], k - 1);
      assert s[1..][k - 1..] == s[k..];
      assert s[..k] == [s[0]] + s[1..][..k - 1];
    }
  }

  lemma {:induction false} WordCharactersOfGap(s: string, k: nat)
    requires k <= |s|
    requires forall j :: 0 <= j < k ==> IsSeparator(s[j])
    ensures WordCharacters(s) == WordCharacters(s[k..])
  {
    if k > 0 {
      WordCharactersOfGap(s[1..], k - 1);
      assert s[1..][k - 1..] == s[k..];
    }
  }

  /** Splitting drops exactly the separators: joined back together, the pieces
      are the non-separator characters of the name, in order. */
  lemma {:induction false} SplitKeepsWordCharacters(s: string)
    ensures Concat(Split(s)) == WordCharacters(s)
    decreases |s|
  {
    var w := RunLength(s, false);
    WordCharactersOfWord(s, w);
    if w == |s| {
      assert s[w..] == [];
      assert Concat([s]) == s + Concat([]);
    } else {
      var rest := s[w..];
      var gap := RunLength(rest, true);
      SplitKeepsWordCharacters(rest[gap..]);
      WordCharactersOfGap(rest, gap);
      var parts := [s[..w]] + Split(rest[gap..]);
      assert parts[1..] == Split(rest[gap..]);
    }
  }

  // ---------------------------------------------------------------------
  // Initials
  // ---------------------------------------------------------------------

  /** `email.split('@')[0]`: the text before the first '@', or all of it. */
  function LocalPart(email: string): (r: string)
    ensures r <= email
    ensures '@' !in r
    ensures |r| < |email| ==> email[|r|] == '@'
  {
    if email == [] || email[0] == '@' then [] else [email[0]] + LocalPart(email[1..])
  }

  /** `user.email || ''`. */
  function EmailOf(user: AuthUser): string
  {
    if user.email.Some? then user.email.value else ""
  }

  /** `(user.user_metadata || {}).full_name`. */
  function FullNameOf(user: AuthUser): Option<string>
  {
    if user.metadata.Some? then user.metadata.value.fullName else None
  }

  /** The name the initials are taken from, by fallback: the full name in the
      user's metadata when non-empty, else the text of the email before the
      first '@' when non-empty, else "User". */
  function DisplayName(user: AuthUser): (name: string)
    ensures name != []
    ensures Truthy(FullNameOf(user)) ==> name == FullNameOf(user).value
    ensures !Truthy(FullNameOf(user)) ==>
              name == if LocalPart(EmailOf(user)) != [] then LocalPart(EmailOf(user)) else "User"
  {
    if Truthy(FullNameOf(user)) then FullNameOf(user).value
    else if LocalPart(EmailOf(user)) != "" then LocalPart(EmailOf(user))
    else "User"
  }

  /** `getInitials`: "??" without a user; otherwise the first character of each
      word of the display name, upper-cased, at most two of them. */
  function GetInitials(user: Option<AuthUser>): (r: string)
    ensures user.None? ==> r == "??"
    ensures |r| <= 2
    ensures forall i :: 0 <= i < |r| ==> !IsSeparator(r[i])
    ensures user.Some? ==> r == Slice(UpperAscii(WordStarts(DisplayName(user.value))), 2)
  {
    match user
    case None => "??"
    case Some(u) =>
      var name := DisplayName(u);
      InitialsAreWordStarts(name);
      Slice(UpperAscii(FirstChars(Split(name))), 2)
  }

  // ---------------------------------------------------------------------
  // Navigation
  // ---------------------------------------------------------------------

  /** One navigation button: the tab it selects, its caption, and whether it is highlighted. */
  datatype NavItem = NavItem(key: string, caption: string, active: bool)

  function Item(key: string, caption: string, activeTab: string): NavItem
  {
    NavItem(key, caption, key == activeTab)
  }

  /** The list has a button for tab `key`. */
  predicate Shows(items: seq<NavItem>, key: string)
  {
    exists i :: 0 <= i < |items| && items[i].key == key
  }

  /** Each button is highlighted exactly when its tab is the active tab. */
  predicate MarksActiveTab(items: seq<NavItem>, activeTab: string)
  {
    forall i :: 0 <= i < |items| ==> (items[i].active <==> items[i].key == activeTab)
  }

  predicate DistinctKeys(items: seq<NavItem>)
  {
    forall i, j :: 0 <= i < j < |items| ==> items[i].key != items[j].key
  }

  /** The desktop sidebar: Dashboard, Clients, Bookings, Packages, then Tasks
      and Employees for a Super Admin only, then AI Studio. */
  function SidebarItems(isSuperAdmin: bool, activeTab: string): (items: seq<NavItem>)
    ensures MarksActiveTab(items, activeTab)
    ensures DistinctKeys(items)
    ensures Shows(items, "tasks") <==> isSuperAdmin
    ensures Shows(items, "employees") <==> isSuperAdmin
    ensures |items| == if isSuperAdmin then 7 else 5
    ensures items[0].key == "dashboard" && items[1].key == "clients"
    ensures items[2].key == "bookings" && items[3].key == "packages"
    ensures items[|items| - 1].key == "ai"
    ensures isSuperAdmin ==> items[4].key == "tasks" && items[5].key == "employees"
  {
    var items :=
      [Item("dashboard", "Dashboard", activeTab), Item("clients", "Clients", activeTab),
       Item("bookings", "Bookings", activeTab), Item("packages", "Packages", activeTab)]
      + (if isSuperAdmin then [Item("tasks", "Tasks", activeTab), Item("employees", "Employees", activeTab)] else [])
      + [Item("ai", "AI Studio", activeTab)];
    assert isSuperAdmin ==> items[4].key == "tasks" && items[5].key == "employees";
    items
  }

  /** The mobile bottom bar: Home, Clients, Bookings, then Tasks and Staff for
      a Super Admin only. */
  function BottomNavItems(isSuperAdmin: bool, activeTab: string): (items: seq<NavItem>)
    ensures MarksActiveTab(items, activeTab)
    ensures DistinctKeys(items)
    ensures Shows(items, "tasks") <==> isSuperAdmin
    ensures Shows(items, "employees") <==> isSuperAdmin
    ensures |items| == if isSuperAdmin then 5 else 3
    ensures items[0].key == "dashboard" && items[1].key == "clients" && items[2].key == "bookings"
    ensures isSuperAdmin ==> items[3].key == "tasks" && items[4].key == "employees"
  {
    var items :=
      [Item("dashboard", "Home", activeTab), Item("clients", "Clients", activeTab), Item("bookings", "Bookings", activeTab)]
      + (if isSuperAdmin then [Item("tasks", "Tasks", activeTab), Item("employees", "Staff", activeTab)] else []);
    assert isSuperAdmin ==> items[3].key == "tasks" && items[4].key == "employees";
    items
  }

  /** Every tab the bottom bar offers is also in the sidebar, highlighted alike. */
  lemma BottomNavWithinSidebar(isSuperAdmin: bool, activeTab: string)
    ensures var side := SidebarItems(isSuperAdmin, activeTab);
      forall item :: item in BottomNavItems(isSuperAdmin, activeTab) ==>
        exists i :: 0 <= i < |side| && side[i].key == item.key && side[i].active == item.active
  {
    var side := SidebarItems(isSuperAdmin, activeTab);
    var bottom := BottomNavItems(isSuperAdmin, activeTab);
    forall item | item in bottom
      ensures exists i :: 0 <= i < |side| && side[i].key == item.key && side[i].active == item.active
    {
      var j :| 0 <= j < |bottom| && bottom[j] == item;
      var i := if j < 3 then j else j + 1;
      assert side[i].key == item.key;
    }
  }

  /** In a list that marks the active tab and has no repeated tab, at most one
      button is highlighted, and one is exactly when the active tab is shown. */
  lemma AtMostOneActive(items: seq<NavItem>, activeTab: string)
    requires MarksActiveTab(items, activeTab) && DistinctKeys(items)
    ensures forall i, j :: 0 <= i < |items| && 0 <= j < |items| && items[i].active && items[j].active ==> i == j
    ensures (exists i :: 0 <= i < |items| && items[i].active) <==> Shows(items, activeTab)
  {
  }

  /** Both navigation lists highlight at most one button; none when the active
      tab is one the list does not show (a non-admin on the Tasks tab, say). */
  lemma NavigationHighlightsActiveTab(isSuperAdmin: bool, activeTab: string)
    ensures var side := SidebarItems(isSuperAdmin, activeTab);
      (forall i, j :: 0 <= i < |side| && 0 <= j < |side| && side[i].active && side[j].active ==> i == j)
      && ((exists i :: 0 <= i < |side| && side[i].active) <==> Shows(side, activeTab))
    ensures var bottom := BottomNavItems(isSuperAdmin, activeTab);
      (forall i, j :: 0 <= i < |bottom| && 0 <= j < |bottom| && bottom[i].active && bottom[j].active ==> i == j)
      && ((exists i :: 0 <= i < |bottom| && bottom[i].active) <==> Shows(bottom, activeTab))
  {
    AtMostOneActive(SidebarItems(isSuperAdmin, activeTab), activeTab);
    AtMostOneActive(BottomNavItems(isSuperAdmin, activeTab), activeTab);
  }
}
