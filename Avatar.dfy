/**
 * The avatar screen's accessory state: which accessory category is
 * selected, and which accessory id is worn per category. Tapping an owned
 * accessory puts it on, or takes it off when it is already worn; tapping
 * one that is not owned does nothing. Icons are left out.
 */
module Avatar {
  datatype AccessoryType = Hat | Shirt | Pants | Shoes | Glasses | Backpack

  datatype SampleAccessory = SampleAccessory(id: string, name: string, isOwned: bool)

  /** The accessories offered for each category. */
  function SampleAccessories(t: AccessoryType): seq<SampleAccessory>
  {
    match t
    case Hat => [SampleAccessory("hat1", "Baseballcap", true), SampleAccessory("hat2", "Beanie", true),
                 SampleAccessory("hat3", "Cowboyhut", false)]
    case Shirt => [SampleAccessory("shirt1", "T-Shirt", true), SampleAccessory("shirt2", "Hoodie", false),
                   SampleAccessory("shirt3", "Tank Top", true)]
    case Pants => [SampleAccessory("pants1", "Jeans", true), SampleAccessory("pants2", "Shorts", true),
                   SampleAccessory("pants3", "Jogginghose", false)]
    case Shoes => [SampleAccessory("shoes1", "Sneaker", true), SampleAccessory("shoes2", "Laufschuhe", false),
                   SampleAccessory("shoes3", "Boots", false)]
    case Glasses => [SampleAccessory("glasses1", "Sonnenbrille", true), SampleAccessory("glasses2", "Brille", false)]
    case Backpack => [SampleAccessory("backpack1", "Rucksack", true), SampleAccessory("backpack2", "Sporttasche", false)]
  }

  /** The German heading of each category. */
  function AccessoryTypeName(t: AccessoryType): string
  {
    match t
    case Hat => "Hüte"
    case Shirt => "Oberteile"
    case Pants => "Hosen"
    case Shoes => "Schuhe"
    case Glasses => "Brillen"
    case Backpack => "Rucksäcke"
  }

  /** Whether `a` shows as worn in category `t`: the map holds exactly its id there. */
  predicate IsEquipped(equipped: map<AccessoryType, string>, t: AccessoryType, a: SampleAccessory)
  {
    t in equipped && equipped[t] == a.id
  }

  /**
   * The worn-accessory map after tapping `a` while category `t` is
   * selected. Only the entry for `t` can change.
   */
  function Toggled(equipped: map<AccessoryType, string>, t: AccessoryType, a: SampleAccessory): (r: map<AccessoryType, string>)
    ensures !a.isOwned ==> r == equipped
    ensures a.isOwned && IsEquipped(equipped, t, a) ==> t !in r
    ensures a.isOwned && !IsEquipped(equipped, t, a) ==> t in r && r[t] == a.id
    ensures forall u :: u != t ==> (u in r <==> u in equipped) && (u in r ==> r[u] == equipped[u])
  {
    if !a.isOwned then equipped
    else if IsEquipped(equipped, t, a) then equipped - {t}
    else equipped[t := a.id]
  }

  /** A tap on an owned accessory flips whether it shows as worn; on any other it changes nothing. */
  lemma TapFlipsEquipped(equipped: map<AccessoryType, string>, t: AccessoryType, a: SampleAccessory)
    ensures IsEquipped(Toggled(equipped, t, a), t, a) <==> (a.isOwned != IsEquipped(equipped, t, a))
  {
  }

  /**
   * Tapping the same owned accessory twice restores the map exactly when
   * the category was empty or already wearing it; if another accessory was
   * worn there, the two taps leave the category empty.
   */
  lemma DoubleTap(equipped: map<AccessoryType, string>, t: AccessoryType, a: SampleAccessory)
    requires a.isOwned
    ensures Toggled(Toggled(equipped, t, a), t, a) == equipped <==> t !in equipped || equipped[t] == a.id
    ensures t in equipped && equipped[t] != a.id ==> Toggled(Toggled(equipped, t, a), t, a) == equipped - {t}
  {
    var once := Toggled(equipped, t, a);
    var twice := Toggled(once, t, a);
    if t in equipped && equipped[t] != a.id {
      assert t !in twice;
    } else if t in equipped {
      assert twice == equipped[t := a.id];
      assert equipped[t := a.id] == equipped;
    }
  }

  /** Every worn id is an owned accessory offered in its category. */
  ghost predicate WearsOwnedSamples(equipped: map<AccessoryType, string>)
  {
    forall t :: t in equipped ==> exists a :: a in SampleAccessories(t) && a.isOwned && a.id == equipped[t]
  }

  /** Tapping a sample of the shown category never puts on anything unowned. */
  lemma ToggledWearsOwned(equipped: map<AccessoryType, string>, t: AccessoryType, a: SampleAccessory)
    requires WearsOwnedSamples(equipped)
    requires a in SampleAccessories(t)
    ensures WearsOwnedSamples(Toggled(equipped, t, a))
  {
    var r := Toggled(equipped, t, a);
    forall u | u in r
      ensures exists b :: b in SampleAccessories(u) && b.isOwned && b.id == r[u]
    {
      if u == t && !IsEquipped(equipped, t, a) && a.isOwned {
        assert r[u] == a.id;
      } else {
        assert u in equipped && r[u] == equipped[u];
      }
    }
  }

  class AvatarState {
    var selectedAccessoryType: AccessoryType
    var selectedAccessories: map<AccessoryType, string>

    ghost predicate Valid()
      reads this
    {
      WearsOwnedSamples(selectedAccessories)
    }

    constructor ()
      ensures Valid()
      ensures selectedAccessoryType == Hat && selectedAccessories == map[]
    {
      selectedAccessoryType := Hat;
      selectedAccessories := map[];
    }

    /** Shows the accessories of category `t`; nothing is put on or taken off. */
    method SelectType(t: AccessoryType)
      requires Valid()
      modifies this`selectedAccessoryType
      ensures Valid()
      ensures selectedAccessoryType == t
    {
      selectedAccessoryType := t;
    }

    /** Taps accessory `a` of the shown category. */
    method TapAccessory(a: SampleAccessory)
      requires Valid()
      requires a in SampleAccessories(selectedAccessoryType)
      modifies this`selectedAccessories
      ensures Valid()
      ensures selectedAccessories == Toggled(old(selectedAccessories), selectedAccessoryType, a)
    {
      ToggledWearsOwned(selectedAccessories, selectedAccessoryType, a);
      if a.isOwned {
        var updated := selectedAccessories;
        if selectedAccessoryType in updated && updated[selectedAccessoryType] == a.id {
          updated := updated - {selectedAccessoryType};
        } else {
          updated := updated[selectedAccessoryType := a.id];
        }
        selectedAccessories := updated;
      }
    }
  }

  /** The ids offered in a category are pairwise different. */
  ghost predicate DistinctIds(items: seq<SampleAccessory>)
  {
    forall i, j :: 0 <= i < j < |items| ==> items[i].id != items[j].id
  }

  /**
   * Every category offers at least two accessories with distinct ids, at
   * least one of them owned (so something can always be put on), and the
   * category names are pairwise different.
   */
  lemma SampleCatalogue(t: AccessoryType, u: AccessoryType)
    ensures |SampleAccessories(t)| >= 2 && DistinctIds(SampleAccessories(t))
    ensures SampleAccessories(t)[0].isOwned
    ensures AccessoryTypeName(t) == AccessoryTypeName(u) <==> t == u
  {
    if t != u {
      assert AccessoryTypeName(t)[1] != AccessoryTypeName(u)[1] || AccessoryTypeName(t)[0] != AccessoryTypeName(u)[0];
    }
  }
}
