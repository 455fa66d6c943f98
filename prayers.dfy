/**
 * The five daily prayers, their fixed order and the notification tag each
 * one is registered under (sw.js:57, 80).
 */
module Prayers {

  datatype Prayer = Fajr | Dhuhr | Asr | Maghrib | Isha

  /** The order in which the scheduler walks the prayers. */
  const Order: seq<Prayer> := [Fajr, Dhuhr, Asr, Maghrib, Isha]

  /** The key of a prayer in the timings object sent by the page. */
  function Name(p: Prayer): string {
    match p
    case Fajr => "Fajr"
    case Dhuhr => "Dhuhr"
    case Asr => "Asr"
    case Maghrib => "Maghrib"
    case Isha => "Isha"
  }

  const TagPrefix: string := "adhan-"

  /** The notification tag `adhan-<Prayer>`. */
  function Tag(p: Prayer): (t: string)
    ensures |t| > |TagPrefix| && t[..|TagPrefix|] == TagPrefix
  {
    TagPrefix + Name(p)
  }

  /** The timings object: prayer name to a string such as "17:45 (EET)". */
  type Timings = map<string, string>

  /** Every prayer appears in the order exactly once. */
  lemma OrderListsEachPrayerOnce(p: Prayer)
    ensures |Order| == 5
    ensures p in Order
    ensures forall i, j :: 0 <= i < j < |Order| ==> Order[i] != Order[j]
  {
  }

  /** Different prayers get different tags, so each prayer owns exactly one tag. */
  lemma TagIsInjective(p: Prayer, q: Prayer)
    ensures Tag(p) == Tag(q) <==> p == q
  {
    if p != q {
      assert Name(p) != Name(q);
      assert Tag(p)[|TagPrefix|..] == Name(p);
      assert Tag(q)[|TagPrefix|..] == Name(q);
    }
  }

  /** No prayer's tag is the bare prefix itself. */
  lemma TagIsNotPrefix(p: Prayer)
    ensures Tag(p) != TagPrefix
  {
    assert |Tag(p)| > |TagPrefix|;
  }
}
