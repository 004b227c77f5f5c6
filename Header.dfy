/**
 * The web client's header: the avatar initials of the stored user, the
 * active-link test, menu navigation and logout.
 */
module Header {
  import opened Wrappers
  import opened Text
  import opened LoginPage

  const NoUserInitials: string := "SK"

  /** The words of a split: its non-empty pieces, in order. */
  function Words(pieces: seq<string>): (ws: seq<string>)
    ensures |ws| <= |pieces|
    ensures forall i :: 0 <= i < |ws| ==> ws[i] != ""
    ensures forall w :: w in ws ==> w != "" && w in pieces
    ensures forall p :: p in pieces && p != "" ==> p in ws
  {
    if pieces == [] then []
    else
      var rest := Words(pieces[1..]);
      assert forall p :: p in pieces[1..] ==> p in pieces;
      assert forall p :: p in pieces ==> p == pieces[0] || p in pieces[1..];
      if pieces[0] == "" then rest else [pieces[0]] + rest
  }

  /**
   * `pieces.map(n => n[0]).join("")`: an empty piece maps to `undefined`,
   * which joins as "", so only the words contribute, one character each.
   */
  function FirstChars(pieces: seq<string>): (r: string)
    ensures |r| == |Words(pieces)|
    ensures forall i :: 0 <= i < |r| ==> r[i] == Words(pieces)[i][0]
  {
    if pieces == [] then ""
    else
      var rest := FirstChars(pieces[1..]);
      if pieces[0] == "" then rest else [pieces[0][0]] + rest
  }

  /**
   * `initials`: "SK" with no user; otherwise the upper-cased first character
   * of each space-separated word of the user's name, in order.
   */
  function Initials(user: Option<StoredUser>): (r: string)
    ensures user.None? ==> r == NoUserInitials
    ensures user.Some? ==>
      var ws := Words(Split(user.value.name, ' '));
      && |r| == |ws|
      && forall i :: 0 <= i < |r| ==> r[i] == UpperChar(ws[i][0])
  {
    match user
    case None => NoUserInitials
    case Some(u) => ToUpper(FirstChars(Split(u.name, ' ')))
  }

  /** The words of a name hold no space and are not empty. */
  lemma WordsHaveNoSpace(name: string)
    ensures forall w :: w in Words(Split(name, ' ')) ==> w != "" && ' ' !in w
  {
    var pieces := Split(name, ' ');
    forall w | w in Words(pieces)
      ensures w != "" && ' ' !in w
    {
      var k :| 0 <= k < |pieces| && pieces[k] == w;
    }
  }

  /** A one-word name gives one initial: its first character, upper-cased. */
  lemma OneWordInitial(u: StoredUser)
    requires u.name != "" && ' ' !in u.name
    ensures Initials(Some(u)) == [UpperChar(u.name[0])]
  {
    var pieces := Split(u.name, ' ');
    assert |pieces| == 1;
    assert pieces == [u.name];
    assert Words(pieces[1..]) == [];
    assert Words(pieces) == [u.name];
  }

  /** The header's state. `location` is the current route. */
  class HeaderState {
    var open: bool
    var avatarOpen: bool
    var user: Option<StoredUser>
    var location: string

    /** The header as mounted: both menus closed, the user read from localStorage. */
    constructor (storage: Storage, location: string)
      ensures !open && !avatarOpen && user == storage.user && this.location == location
    {
      open, avatarOpen := false, false;
      user := storage.user;
      this.location := location;
    }

    /** `isActive`: exact equality with the current route, no prefix match. */
    predicate IsActive(path: string)
      reads this
    {
      location == path
    }

    /** The current route is the one active path; a proper prefix of it, such as "/" under "/history", is not active. */
    lemma ActiveIsExact(path: string)
      ensures IsActive(location)
      ensures IsActive(path) <==> path == location
      ensures |path| < |location| ==> !IsActive(path)
    {
    }

    /** `go`: closes the mobile menu, then navigates; afterwards exactly `path` is active. */
    method Go(path: string)
      modifies this`open, this`location
      ensures !open && location == path
      ensures IsActive(path) && forall q :: IsActive(q) ==> q == path
    {
      open := false;
      location := path;
    }

    /**
     * `handleLogout`: removes the stored user, forgets it, closes the avatar
     * menu and goes to "/"; the mobile menu is left as it is.
     */
    method HandleLogout(storage: Storage)
      modifies this`user, this`avatarOpen, this`location, storage
      ensures storage.user.None? && user.None? && !avatarOpen && location == "/"
      ensures Initials(user) == NoUserInitials
    {
      storage.user := None;
      user := None;
      avatarOpen := false;
      location := "/";
    }
  }
}
