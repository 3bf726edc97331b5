/**
 * The contact directory: `LineClient._mid_to_contacts`, rebuilt wholesale by
 * `update_contacts` and read by `mid_to_contact` and `find_contact`.
 */
module Directory {
  import opened Wrappers
  import opened LineTypes

  type Dir = map<Mid, Contact>

  /** Every entry is filed under its own contact's mid. */
  ghost predicate WellKeyed(dir: Dir)
  {
    forall m :: m in dir ==> dir[m].mid == m
  }

  /**
   * `dict([(contact.mid, LineContact(contact)) for contact in contacts])`:
   * each contact under its mid, a later contact replacing an earlier one
   * with the same mid.
   */
  function ContactMap(cs: seq<Contact>): (d: Dir)
    ensures WellKeyed(d)
  {
    if cs == [] then map[]
    else ContactMap(cs[..|cs| - 1])[cs[|cs| - 1].mid := cs[|cs| - 1]]
  }

  /** The keys of the rebuilt map are exactly the fetched contacts' mids. */
  lemma {:induction false} ContactMapKeys(cs: seq<Contact>)
    ensures ContactMap(cs).Keys == set c | c in cs :: c.mid
  {
    if cs != [] {
      var init := cs[..|cs| - 1];
      ContactMapKeys(init);
      assert cs == init + [cs[|cs| - 1]];
    }
  }

  /** No contact after position i shares its mid. */
  ghost predicate LastWithMid(cs: seq<Contact>, i: int)
    requires 0 <= i < |cs|
  {
    forall j :: i < j < |cs| ==> cs[j].mid != cs[i].mid
  }

  /** A contact no later contact shares a mid with is the one filed under that mid. */
  lemma {:induction false} ContactMapLastWins(cs: seq<Contact>, i: nat)
    requires i < |cs|
    requires LastWithMid(cs, i)
    ensures cs[i].mid in ContactMap(cs) && ContactMap(cs)[cs[i].mid] == cs[i]
  {
    if i < |cs| - 1 {
      var init := cs[..|cs| - 1];
      ContactMapLastWins(init, i);
    }
  }

  /**
   * `update_contacts`: the map of the fetched contacts with the user's own
   * profile inserted last, so that the profile wins on a shared mid.
   */
  function Rebuilt(fetched: seq<Contact>, profile: Contact): (d: Dir)
    ensures WellKeyed(d)
    ensures d.Keys == (set c | c in fetched :: c.mid) + {profile.mid}
    ensures d[profile.mid] == profile
    ensures forall i :: 0 <= i < |fetched| && fetched[i].mid != profile.mid && LastWithMid(fetched, i) ==>
      d[fetched[i].mid] == fetched[i]
  {
    ContactMapKeys(fetched);
    forall i | 0 <= i < |fetched| && LastWithMid(fetched, i)
      ensures ContactMap(fetched)[fetched[i].mid] == fetched[i]
    {
      ContactMapLastWins(fetched, i);
    }
    ContactMap(fetched)[profile.mid := profile]
  }

  /** `mid_to_contact(mid)`: the contact filed under mid, or a `KeyError`. */
  function Lookup(dir: Dir, mid: Mid): (r: Result<Contact, LineError>)
    ensures r.Success? <==> mid in dir
    ensures r.Failure? ==> r.error == NotFound(mid)
    ensures r.Success? ==> r.value == dir[mid]
    ensures WellKeyed(dir) && r.Success? ==> r.value.mid == mid && r.value in dir.Values
  {
    if mid in dir then Success(dir[mid]) else Failure(NotFound(mid))
  }

  // ---------------------------------------------------------------------
  // Case-insensitive substring search

  /** `str.lower()` on one character, ASCII letters only. */
  function LowerChar(c: char): char
  {
    if 'A' <= c <= 'Z' then (c as int + 32) as char else c
  }

  function Lower(s: string): (r: string)
    ensures |r| == |s|
    ensures forall i :: 0 <= i < |s| ==> r[i] == LowerChar(s[i])
  {
    if s == [] then [] else [LowerChar(s[0])] + Lower(s[1..])
  }

  /** Lowering an already lowered string changes nothing. */
  lemma LowerIdempotent(s: string)
    ensures Lower(Lower(s)) == Lower(s)
  {
  }

  /** Python's `needle in hay` on strings, as a scan of every start position. */
  function IsSubstring(needle: string, hay: string): bool
    decreases |hay|
  {
    if |needle| > |hay| then false
    else if needle <= hay then true
    else IsSubstring(needle, hay[1..])
  }

  ghost predicate OccursAt(needle: string, hay: string, i: int)
  {
    0 <= i && i + |needle| <= |hay| && hay[i..i + |needle|] == needle
  }

  lemma SliceOfTail(hay: string, i: nat, n: nat)
    requires 0 < |hay| && i + n <= |hay| - 1
    ensures hay[1..][i..i + n] == hay[i + 1..i + 1 + n]
  {
  }

  /** The needle occurs somewhere in the hay. */
  ghost predicate Occurs(needle: string, hay: string)
  {
    exists i :: OccursAt(needle, hay, i)
  }

  /** The scan finds the needle exactly when it occurs at some position of the hay. */
  lemma {:induction false} IsSubstringIff(needle: string, hay: string)
    ensures IsSubstring(needle, hay) <==> Occurs(needle, hay)
    decreases |hay|
  {
    if |needle| > |hay| {
      assert forall i :: !OccursAt(needle, hay, i);
    } else if needle <= hay {
      assert OccursAt(needle, hay, 0);
    } else {
      IsSubstringIff(needle, hay[1..]);
      if Occurs(needle, hay) {
        var i :| OccursAt(needle, hay, i);
        assert i != 0;
        SliceOfTail(hay, i - 1, |needle|);
        assert OccursAt(needle, hay[1..], i - 1);
      }
      if Occurs(needle, hay[1..]) {
        var i :| OccursAt(needle, hay[1..], i);
        SliceOfTail(hay, i, |needle|);
        assert OccursAt(needle, hay, i + 1);
      }
    }
  }

  /** The query's test in `find_contact`: its lowered text occurs in the lowered display name. */
  predicate NameMatches(name: string, c: Contact)
  {
    IsSubstring(Lower(name), Lower(c.displayName))
  }

  /**
   * `find_contact(name)`: the contacts whose lowered display name contains
   * the lowered query, and no others. The source returns a list in the
   * dictionary's order; the set keeps every match apart from that order as
   * long as no two mids hold equal contacts, which a well-keyed directory
   * (the only kind the client builds) guarantees.
   */
  function Find(dir: Dir, name: string): (r: set<Contact>)
    ensures forall c :: c in r <==> c in dir.Values && Occurs(Lower(name), Lower(c.displayName))
  {
    forall c | c in dir.Values
      ensures NameMatches(name, c) <==> Occurs(Lower(name), Lower(c.displayName))
    {
      IsSubstringIff(Lower(name), Lower(c.displayName));
    }
    set c | c in dir.Values && NameMatches(name, c)
  }

  /** The search ignores the case of the query. */
  lemma FindIgnoresQueryCase(dir: Dir, name: string)
    ensures Find(dir, name) == Find(dir, Lower(name))
  {
    LowerIdempotent(name);
  }
}
