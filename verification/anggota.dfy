/** Group-member management on the student side (the member page and the
    student dashboard): loading the stored members with fresh local ids,
    adding and removing a member, and the list persisted after each. */
module AnggotaKelompok {
  import opened Common

  /** A member as stored on the group record. */
  datatype Member = Member(nama: string, nim: string, prodi: string)

  /** A member as held by the page, with a local id used as the row key. */
  datatype LocalMember = LocalMember(id: string, nama: string, nim: string, prodi: string)

  /** The stored form of a local member: the local id is dropped. */
  function StripOne(a: LocalMember): (m: Member)
    ensures m.nama == a.nama && m.nim == a.nim && m.prodi == a.prodi
  {
    Member(a.nama, a.nim, a.prodi)
  }

  /** The list written back to the group record. */
  function Strip(xs: seq<LocalMember>): (ms: seq<Member>)
    ensures |ms| == |xs|
    ensures forall i :: 0 <= i < |xs| ==> ms[i] == Member(xs[i].nama, xs[i].nim, xs[i].prodi)
  {
    seq(|xs|, i requires 0 <= i < |xs| => StripOne(xs[i]))
  }

  /** The loaded list: each stored member with the `i`-th fresh id; a
      missing member list loads as empty. */
  function Load(stored: Option<seq<Member>>, freshId: nat -> string): (xs: seq<LocalMember>)
    ensures stored.None? ==> xs == []
    ensures stored.Some? ==> |xs| == |stored.value|
    ensures forall i :: 0 <= i < |xs| ==> xs[i].id == freshId(i)
  {
    var ms := if stored.Some? then stored.value else [];
    seq(|ms|, i requires 0 <= i < |ms| => LocalMember(freshId(i), ms[i].nama, ms[i].nim, ms[i].prodi))
  }

  /** Loading and writing back gives the stored members unchanged. */
  lemma LoadStripRoundTrip(stored: Option<seq<Member>>, freshId: nat -> string)
    ensures Strip(Load(stored, freshId)) == if stored.Some? then stored.value else []
  {
    var ms := if stored.Some? then stored.value else [];
    var xs := Load(stored, freshId);
    assert |xs| == |ms|;
    forall i | 0 <= i < |ms|
      ensures Strip(xs)[i] == ms[i]
    {
    }
  }

  /** Distinct fresh ids give every loaded row its own key. */
  lemma LoadedIdsDistinct(stored: Option<seq<Member>>, freshId: nat -> string)
    requires forall i: nat, j: nat :: i != j ==> freshId(i) != freshId(j)
    ensures NoDup(Ids(Load(stored, freshId)))
  {
  }

  function Ids(xs: seq<LocalMember>): (ids: seq<string>)
    ensures |ids| == |xs| && forall i :: 0 <= i < |xs| ==> ids[i] == xs[i].id
  {
    seq(|xs|, i requires 0 <= i < |xs| => xs[i].id)
  }

  /** `anggota.filter(a => a.id !== idToRemove)`. */
  function Remove(xs: seq<LocalMember>, id: string): (r: seq<LocalMember>)
    ensures forall i :: 0 <= i < |r| ==> r[i].id != id && r[i] in xs
    ensures forall i :: 0 <= i < |xs| && xs[i].id != id ==> xs[i] in r
  {
    Filter(xs, (a: LocalMember) => a.id != id)
  }

  /** With distinct ids, removing the id of row `k` deletes exactly that
      row and keeps the others in order. */
  lemma {:induction false} RemoveExactlyOne(xs: seq<LocalMember>, k: int)
    requires NoDup(Ids(xs)) && 0 <= k < |xs|
    ensures Remove(xs, xs[k].id) == xs[..k] + xs[k + 1..]
  {
    var id := xs[k].id;
    var p := (a: LocalMember) => a.id != id;
    assert xs == xs[..k] + [xs[k]] + xs[k + 1..];
    FilterConcat(xs[..k] + [xs[k]], xs[k + 1..], p);
    FilterConcat(xs[..k], [xs[k]], p);
    var head, tail := xs[..k], xs[k + 1..];
    forall i | 0 <= i < |head| ensures p(head[i]) {
      assert Ids(xs)[i] != Ids(xs)[k];
    }
    forall i | 0 <= i < |tail| ensures p(tail[i]) {
      assert Ids(xs)[k + 1 + i] != Ids(xs)[k];
    }
    FilterAll(head, p);
    FilterAll(tail, p);
    FilterNone([xs[k]], p);
  }

  /** Removing an id no row carries changes nothing. */
  lemma RemoveAbsent(xs: seq<LocalMember>, id: string)
    requires forall i :: 0 <= i < |xs| ==> xs[i].id != id
    ensures Remove(xs, id) == xs
  {
    FilterAll(xs, (a: LocalMember) => a.id != id);
  }

  /** Removing an id keeps the remaining ids distinct. */
  lemma RemoveKeepsIdsDistinct(xs: seq<LocalMember>, id: string)
    requires NoDup(Ids(xs))
    ensures NoDup(Ids(Remove(xs, id)))
  {
    var r := Remove(xs, id);
    assert NoDup(xs) by {
      forall i, j | 0 <= i < j < |xs| ensures xs[i] != xs[j] {
        assert Ids(xs)[i] != Ids(xs)[j];
      }
    }
    FilterNoDup(xs, (a: LocalMember) => a.id != id);
    forall i, j | 0 <= i < j < |r| ensures Ids(r)[i] != Ids(r)[j] {
      var a :| 0 <= a < |xs| && xs[a] == r[i];
      var b :| 0 <= b < |xs| && xs[b] == r[j];
      assert r[i] != r[j];
      if a != b {
        assert Ids(xs)[a] != Ids(xs)[b];
      }
    }
  }

  /** Appending a row with a new id keeps the ids distinct. */
  lemma AppendKeepsIdsDistinct(xs: seq<LocalMember>, m: LocalMember)
    requires NoDup(Ids(xs)) && m.id !in Ids(xs)
    ensures NoDup(Ids(xs + [m]))
  {
    assert Ids(xs + [m]) == Ids(xs) + [m.id];
  }

  /** After an add the persisted list is the previous one plus the new member. */
  lemma StripAppend(xs: seq<LocalMember>, a: LocalMember)
    ensures Strip(xs + [a]) == Strip(xs) + [Member(a.nama, a.nim, a.prodi)]
  {
  }

  /** After a remove the persisted list is the previous one without that member. */
  lemma StripRemove(xs: seq<LocalMember>, k: int)
    requires NoDup(Ids(xs)) && 0 <= k < |xs|
    ensures Strip(Remove(xs, xs[k].id)) == Strip(xs)[..k] + Strip(xs)[k + 1..]
  {
    RemoveExactlyOne(xs, k);
  }

  /** The update sent to the group record. */
  datatype Update = Update(kelompokId: string, anggota: seq<Member>)

  /** The page state the two handlers work on. `saveOk` stands for the
      outcome of the update request. */
  class GroupMembers {
    var kelompok: Option<string>
    var anggota: seq<LocalMember>
    var nama: string
    var nim: string
    var prodi: string

    /** Every row has its own id, which is what the delete buttons rely on. */
    ghost predicate Valid()
      reads this
    {
      NoDup(Ids(anggota))
    }

    constructor (kelompok: Option<string>, anggota: seq<LocalMember>)
      ensures this.kelompok == kelompok && this.anggota == anggota
      ensures nama == "" && nim == "" && prodi == ""
    {
      this.kelompok := kelompok;
      this.anggota := anggota;
      nama, nim, prodi := "", "", "";
    }

    /** `handleTambahAnggota`: nothing without a complete form and a group;
        otherwise the extended list is sent, and only a successful save
        commits it and clears the form. */
    method TambahAnggota(newId: string, saveOk: bool) returns (sent: Option<Update>)
      modifies this
      ensures kelompok == old(kelompok)
      ensures old(nama == "" || nim == "" || prodi == "" || kelompok.None?) ==>
        sent.None? && anggota == old(anggota) && nama == old(nama) && nim == old(nim) && prodi == old(prodi)
      ensures !old(nama == "" || nim == "" || prodi == "" || kelompok.None?) ==>
        sent == Some(Update(old(kelompok).value,
                            Strip(old(anggota)) + [Member(old(nama), old(nim), old(prodi))]))
      ensures !old(nama == "" || nim == "" || prodi == "" || kelompok.None?) && saveOk ==>
        anggota == old(anggota) + [LocalMember(newId, old(nama), old(nim), old(prodi))] &&
        nama == "" && nim == "" && prodi == ""
      ensures !saveOk ==> anggota == old(anggota) && nama == old(nama) && nim == old(nim) && prodi == old(prodi)
      ensures old(Valid()) && newId !in Ids(old(anggota)) ==> Valid()
    {
      if nama == "" || nim == "" || prodi == "" || kelompok.None? {
        return None;
      }
      var updated := anggota + [LocalMember(newId, nama, nim, prodi)];
      if Valid() && newId !in Ids(anggota) {
        AppendKeepsIdsDistinct(anggota, LocalMember(newId, nama, nim, prodi));
      }
      StripAppend(anggota, LocalMember(newId, nama, nim, prodi));
      sent := Some(Update(kelompok.value, Strip(updated)));
      if saveOk {
        anggota := updated;
        nama, nim, prodi := "", "", "";
      }
    }

    /** `handleHapusAnggota`: nothing without a group; otherwise the list
        without that id is sent, and committed only after a successful save.
        The form fields are untouched. */
    method HapusAnggota(id: string, saveOk: bool) returns (sent: Option<Update>)
      modifies this
      ensures kelompok == old(kelompok) && nama == old(nama) && nim == old(nim) && prodi == old(prodi)
      ensures old(kelompok).None? ==> sent.None? && anggota == old(anggota)
      ensures old(kelompok).Some? ==> sent == Some(Update(old(kelompok).value, Strip(Remove(old(anggota), id))))
      ensures old(kelompok).Some? && saveOk ==> anggota == Remove(old(anggota), id)
      ensures !saveOk ==> anggota == old(anggota)
      ensures old(Valid()) ==> Valid()
      ensures old(Valid()) && old(kelompok).Some? && saveOk ==>
        forall k :: 0 <= k < |old(anggota)| && old(anggota)[k].id == id ==>
          anggota == old(anggota)[..k] + old(anggota)[k + 1..]
    {
      if kelompok.None? {
        return None;
      }
      var updated := Remove(anggota, id);
      if Valid() {
        RemoveKeepsIdsDistinct(anggota, id);
        forall k | 0 <= k < |anggota| && anggota[k].id == id
          ensures updated == anggota[..k] + anggota[k + 1..]
        {
          RemoveExactlyOne(anggota, k);
        }
      }
      sent := Some(Update(kelompok.value, Strip(updated)));
      if saveOk {
        anggota := updated;
      }
    }
  }

  // -------------------------------------------- loading the student's group

  /** The outcome of looking up the group led by the signed-in student. */
  datatype GroupFetch =
    | Found(id: string, stored: Option<seq<Member>>)
    | NotFound           // the lookup answered 404
    | FetchFailed        // any other failure

  /** A group record to create: the student as leader, no members. */
  datatype NewGroup = NewGroup(ketua: string, anggota: seq<Member>)

  datatype Loaded = Loaded(kelompok: Option<string>, anggota: seq<LocalMember>, create: Option<NewGroup>)

  /** The member page's load: any failure leaves no group and no members. */
  function LoadMemberPage(fetch: GroupFetch, freshId: nat -> string): (l: Loaded)
    ensures l.create.None?
    ensures fetch.Found? ==> l.kelompok == Some(fetch.id) && Strip(l.anggota) == (if fetch.stored.Some? then fetch.stored.value else [])
    ensures !fetch.Found? ==> l == Loaded(None, [], None)
  {
    match fetch
    case Found(id, stored) =>
      LoadStripRoundTrip(stored, freshId);
      Loaded(Some(id), Load(stored, freshId), None)
    case _ => Loaded(None, [], None)
  }

  /** The student dashboard's load: on a 404 a group is created with the
      student as leader and no members; `createdId` is the id the creation
      returned, or None when it failed. Only a 404 creates anything. */
  function LoadDashboard(userId: string, fetch: GroupFetch, createdId: Option<string>, freshId: nat -> string): (l: Loaded)
    ensures l.create.Some? <==> fetch.NotFound?
    ensures fetch.NotFound? ==> l == Loaded(createdId, [], Some(NewGroup(userId, [])))
    ensures fetch.Found? ==> l == LoadMemberPage(fetch, freshId)
    ensures fetch.FetchFailed? ==> l == Loaded(None, [], None)
  {
    match fetch
    case NotFound => Loaded(createdId, [], Some(NewGroup(userId, [])))
    case _ => LoadMemberPage(fetch, freshId)
  }
}
