/**
 * The session-backed store of Services/SessionStorageService.cs over an abstract session: a map
 * from key to the value stored there. JSON text is abstracted to what it decodes to; text that is
 * empty, `null` or does not decode to the expected type is `Unreadable`.
 */
module SessionStorage {
  import opened Wrappers
  import opened Model
  import BeverageList

  datatype Slot = ProfileSlot(profile: Profile) | BeveragesSlot(beverages: seq<Beverage>) | Unreadable(text: string)

  type Session = map<string, Slot>

  const UserProfileKey: string := "UserProfile"
  const BeveragesKey: string := "Beverages"

  /** `GetUserProfile()`: the stored profile, or none when nothing readable is stored. */
  function GetUserProfile(s: Session): (p: Option<Profile>)
    ensures UserProfileKey !in s ==> p == None
    ensures p.Some? <==> UserProfileKey in s && s[UserProfileKey].ProfileSlot?
    ensures p.Some? ==> p.value == s[UserProfileKey].profile
  {
    if UserProfileKey in s && s[UserProfileKey].ProfileSlot? then Some(s[UserProfileKey].profile) else None
  }

  /** `SaveUserProfile(userProfile)`. */
  function SaveUserProfile(s: Session, p: Profile): (s': Session)
    ensures GetUserProfile(s') == Some(p)
    ensures forall k :: k != UserProfileKey ==> (k in s' <==> k in s) && (k in s ==> s'[k] == s[k])
  {
    s[UserProfileKey := ProfileSlot(p)]
  }

  /** `GetBeverages()`: the stored list, or an empty list when nothing readable is stored. */
  function GetBeverages(s: Session): (bs: seq<Beverage>)
    ensures BeveragesKey !in s ==> bs == []
    ensures BeveragesKey in s && !s[BeveragesKey].BeveragesSlot? ==> bs == []
    ensures BeveragesKey in s && s[BeveragesKey].BeveragesSlot? ==> bs == s[BeveragesKey].beverages
  {
    if BeveragesKey in s && s[BeveragesKey].BeveragesSlot? then s[BeveragesKey].beverages else []
  }

  /** `SaveBeverages(beverages)`. */
  function SaveBeverages(s: Session, bs: seq<Beverage>): (s': Session)
    ensures GetBeverages(s') == bs
    ensures forall k :: k != BeveragesKey ==> (k in s' <==> k in s) && (k in s ==> s'[k] == s[k])
  {
    s[BeveragesKey := BeveragesSlot(bs)]
  }

  /** `AddBeverage(newBeverage)`: the beverage gets the id `ticks` (the clock reading) and goes to
      the end of the stored list. */
  function AddBeverage(s: Session, b: Beverage, ticks: int): (s': Session)
    ensures var before, after := GetBeverages(s), GetBeverages(s');
            && |after| == |before| + 1
            && after[..|before|] == before
            && after[|before|] == b.(id := ticks)
    ensures GetUserProfile(s') == GetUserProfile(s)
    ensures forall k :: k != BeveragesKey ==> (k in s' <==> k in s) && (k in s ==> s'[k] == s[k])
  {
    SaveBeverages(s, GetBeverages(s) + [b.(id := ticks)])
  }

  /** `DeleteBeverage(id)`: the stored list without the entries carrying `id`, in order. */
  function DeleteBeverage(s: Session, id: int): (s': Session)
    ensures GetBeverages(s') == BeverageList.Without(GetBeverages(s), id)
    ensures forall i :: 0 <= i < |GetBeverages(s')| ==> GetBeverages(s')[i].id != id
    ensures GetUserProfile(s') == GetUserProfile(s)
    ensures forall k :: k != BeveragesKey ==> (k in s' <==> k in s) && (k in s ==> s'[k] == s[k])
  {
    SaveBeverages(s, BeverageList.Without(GetBeverages(s), id))
  }

  /** `ClearAllData()`: both keys removed, every other session entry kept. */
  function ClearAllData(s: Session): (s': Session)
    ensures GetUserProfile(s') == None
    ensures GetBeverages(s') == []
    ensures UserProfileKey !in s' && BeveragesKey !in s'
    ensures forall k :: k != UserProfileKey && k != BeveragesKey ==> (k in s' <==> k in s) && (k in s ==> s'[k] == s[k])
  {
    s - {UserProfileKey, BeveragesKey}
  }

  /** Deleting an id no stored beverage carries leaves the stored list as it was. */
  lemma DeleteAbsentIdKeepsList(s: Session, id: int)
    requires forall i :: 0 <= i < |GetBeverages(s)| ==> GetBeverages(s)[i].id != id
    ensures GetBeverages(DeleteBeverage(s, id)) == GetBeverages(s)
  {
    BeverageList.WithoutAbsent(GetBeverages(s), id);
  }

  /** A beverage just added under a fresh id is removed again by deleting that id. */
  lemma DeleteUndoesAdd(s: Session, b: Beverage, ticks: int)
    requires forall i :: 0 <= i < |GetBeverages(s)| ==> GetBeverages(s)[i].id != ticks
    ensures GetBeverages(DeleteBeverage(AddBeverage(s, b, ticks), ticks)) == GetBeverages(s)
  {
    var before := GetBeverages(s);
    assert GetBeverages(AddBeverage(s, b, ticks)) == before + [b.(id := ticks)];
    BeverageList.WithoutAppend(before, [b.(id := ticks)], ticks);
    BeverageList.WithoutSingle(b.(id := ticks), ticks);
    BeverageList.WithoutAbsent(before, ticks);
  }
}
