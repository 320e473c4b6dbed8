/** The shop profile store: four text fields kept as rows of `local_meta`, written one
    statement at a time (no transaction) and merged back over the current profile. */
module Shop {
  import opened Common
  import opened Database

  datatype ShopProfile = ShopProfile(name: string, email: string, phone: string, address: string)

  /** `DEFAULT_PROFILE`. */
  const DefaultProfile := ShopProfile("Nadi Coffee & Eatery", "owner@nadicoffee.com",
                                      "0812-3456-7890", "Jl. Kenangan No. 123, Jakarta")

  datatype ShopState = ShopState(profile: ShopProfile, isLoading: bool)

  const InitialShop := ShopState(DefaultProfile, false)

  /** The `local_meta` keys of the four fields, in the order `updateProfile` writes them. */
  const Keys: seq<string> := ["shop_name", "shop_email", "shop_phone", "shop_address"]

  /** The profile's fields in the order of `Keys`. */
  function Fields(p: ShopProfile): (v: seq<string>)
    ensures |v| == 4
  {
    [p.name, p.email, p.phone, p.address]
  }

  /** The field stored under a key, if a row exists, else the current one. */
  function Pick(meta: map<string, string>, key: string, current: string): string
  {
    if key in meta then meta[key] else current
  }

  /** `fetchProfile`: the fields whose key has a row take the stored value; the others keep
      their current value. A failed read leaves the profile alone. Loading ends either way. */
  function FetchProfile(st: ShopState, db: Db, readFails: bool): (r: ShopState)
    ensures !r.isLoading
    ensures readFails ==> r.profile == st.profile
    ensures !readFails ==> forall i :: 0 <= i < 4 ==>
              Fields(r.profile)[i] == (if Keys[i] in db.meta then db.meta[Keys[i]] else Fields(st.profile)[i])
  {
    if readFails then st.(isLoading := false)
    else
      var p := st.profile;
      ShopState(ShopProfile(Pick(db.meta, "shop_name", p.name), Pick(db.meta, "shop_email", p.email),
                            Pick(db.meta, "shop_phone", p.phone), Pick(db.meta, "shop_address", p.address)),
                false)
  }

  /** With no profile rows stored, a fetch on a fresh store shows the default profile. */
  lemma FreshFetchIsDefault(db: Db, readFails: bool)
    requires forall i :: 0 <= i < 4 ==> Keys[i] !in db.meta
    ensures FetchProfile(InitialShop, db, readFails).profile == DefaultProfile
  {
    assert Keys[0] !in db.meta && Keys[1] !in db.meta && Keys[2] !in db.meta && Keys[3] !in db.meta;
  }

  /** The four upserts `updateProfile` issues. */
  function ProfileStatements(p: ShopProfile): (s: seq<Stmt>)
    ensures |s| == 4
    ensures forall i :: 0 <= i < 4 ==> s[i] == ReplaceMetaRow(Keys[i], Fields(p)[i])
  {
    [ReplaceMetaRow("shop_name", p.name), ReplaceMetaRow("shop_email", p.email),
     ReplaceMetaRow("shop_phone", p.phone), ReplaceMetaRow("shop_address", p.address)]
  }

  /** `local_meta` after the first `n` upserts of the profile. */
  function Written(meta: map<string, string>, p: ShopProfile, n: nat): map<string, string>
    requires n <= 4
  {
    if n == 0 then meta else Written(meta, p, n - 1)[Keys[n - 1] := Fields(p)[n - 1]]
  }

  lemma {:induction false} WrittenLookup(meta: map<string, string>, p: ShopProfile, n: nat)
    requires n <= 4
    ensures forall i :: 0 <= i < n ==> Keys[i] in Written(meta, p, n) && Written(meta, p, n)[Keys[i]] == Fields(p)[i]
    ensures forall key :: key !in Keys[..n] ==>
              (key in Written(meta, p, n) <==> key in meta) &&
              (key in meta ==> Written(meta, p, n)[key] == meta[key])
  {
    if n > 0 {
      WrittenLookup(meta, p, n - 1);
      assert Keys[..n] == Keys[..n - 1] + [Keys[n - 1]];
    }
  }

  /** A run of the profile upserts from statement `j` on, with meta already holding the first
      `j` writes: it stops at the fault, and nothing but `local_meta` changes. */
  lemma {:induction false} ProfileRun(db: Db, p: ShopProfile, j: nat, fault: Option<nat>)
    requires j <= 4
    ensures var n := if fault.Some? && j + fault.value < 4 then j + fault.value else 4;
            RunAutocommit(db.(meta := Written(db.meta, p, j)), ProfileStatements(p)[j..], fault)
              == Run(db.(meta := Written(db.meta, p, n)), if n < 4 then Some(IoError) else None)
    decreases 4 - j
  {
    var stmts := ProfileStatements(p);
    if j < 4 && fault != Some(0) {
      assert stmts[j..][1..] == stmts[j + 1..];
      ProfileRun(db, p, j + 1, Later(fault));
    }
  }

  /** `updateProfile`: the four upserts run one by one. When all succeed the profile becomes
      `p`; when one fails the profile is kept, although the upserts before it stay written.
      Loading ends either way. */
  function UpdateProfile(st: ShopState, db: Db, p: ShopProfile, fault: Option<nat>): (r: (ShopState, Db))
    ensures var n := if fault.Some? && fault.value < 4 then fault.value else 4;
            && !r.0.isLoading
            && r.0.profile == (if n == 4 then p else st.profile)
            && r.1.products == db.products && r.1.inventory == db.inventory
            && (forall i :: 0 <= i < n ==> Keys[i] in r.1.meta && r.1.meta[Keys[i]] == Fields(p)[i])
            && (forall key :: key !in Keys[..n] ==>
                  (key in r.1.meta <==> key in db.meta) && (key in db.meta ==> r.1.meta[key] == db.meta[key]))
  {
    var stmts := ProfileStatements(p);
    ProfileRun(db, p, 0, fault);
    assert stmts[0..] == stmts;
    var n := if fault.Some? && fault.value < 4 then fault.value else 4;
    WrittenLookup(db.meta, p, n);
    var run := RunAutocommit(db, stmts, fault);
    (ShopState(if run.error.None? then p else st.profile, false), run.db)
  }

  /** Round trip: after an `updateProfile` that went through, `fetchProfile` shows exactly the
      profile written, whatever the store showed before. */
  lemma UpdateThenFetch(st: ShopState, db: Db, p: ShopProfile, other: ShopState)
    ensures var d := UpdateProfile(st, db, p, None).1;
            FetchProfile(other, d, false).profile == p
  {
    var d := UpdateProfile(st, db, p, None).1;
    assert Keys[..4] == Keys;
    assert Fields(FetchProfile(other, d, false).profile) == Fields(p);
  }
}
