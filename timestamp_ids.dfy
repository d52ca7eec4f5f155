/**
 * Identifiers as the store writes them: a fixed prefix per table followed
 * by `Date.now()`, so a table is in effect keyed by the millisecond of the
 * insertion. Two insertions into one table within the same millisecond get
 * the same key, and the second replaces the first. The model draws ids
 * from a counter instead (`DataStore.clock`), so every insertion appends.
 */
module TimestampIds {
  import opened Options
  import opened OrderedMap
  import opened Sequences
  import opened Entities
  import Store

  /** `table.set(`${prefix}${Date.now()}`, record)`: the key is the millisecond. */
  function AddStamped<V>(m: OMap<Time, V>, now: Time, v: V): OMap<Time, V>
    requires m.Valid()
  {
    m.Put(now, v)
  }

  /**
   * Of two records added to a table in the same (so far unused) millisecond,
   * only the second remains: the table grows by one, not two.
   */
  lemma SameMillisecondKeepsLast<V>(m: OMap<Time, V>, now: Time, a: V, b: V)
    requires m.Valid() && now !in m.entries
    ensures AddStamped(AddStamped(m, now, a), now, b).Values() == m.Values() + [b]
  {
    var once := AddStamped(m, now, a);
    PutNewAppends(m, now, a);
    PutExistingKeepsPosition(once, now, b);
    assert once.keys[|m.keys|] == now;
  }

  /**
   * The sample data adds its two customers one after the other; as written,
   * when both land in the same millisecond the first is lost and its wallet
   * is no longer found.
   */
  lemma SeedingLosesFirstCustomer(now: Time)
    ensures var first := Customer(now, "GDB4K2", "Ahmet Yılmaz", "ahmet@example.com", "+90 555 123 4567", "İstanbul, Türkiye", now);
      var second := Customer(now, "GDFX9L", "Fatma Öztürk", "fatma@example.com", "+90 555 987 6543", "Ankara, Türkiye", now);
      var table := AddStamped(AddStamped(OMap([], map[]), now, first), now, second);
      && table.Values() == [second]
      && FirstIndex(table.Values(), Store.HasWallet("GDB4K2")).None?
  {
    var first := Customer(now, "GDB4K2", "Ahmet Yılmaz", "ahmet@example.com", "+90 555 123 4567", "İstanbul, Türkiye", now);
    var second := Customer(now, "GDFX9L", "Fatma Öztürk", "fatma@example.com", "+90 555 987 6543", "Ankara, Türkiye", now);
    var empty: OMap<Time, Customer> := OMap([], map[]);
    SameMillisecondKeepsLast(empty, now, first, second);
    assert empty.Values() == [];
    assert Store.HasWallet("GDB4K2")(second) == false;
  }
}
