/** The student form of src/components/SiswaDialog.tsx: the prefill that turns
    the record under edit (or none) into form fields, the `isOpen` guard and
    title, and the submit handler that closes the dialog only after the parent's
    `onSubmit` resolved. The year of `new Date().getFullYear()` is a parameter. */
module SiswaDialog {
  import opened Common
  import opened Api

  const EDIT_TITLE := "Edit Data Siswa"
  const CREATE_TITLE := "Tambah Siswa Baru"

  /** The form for a new student: blank strings, `jenis_kelamin` 'L' and this year. */
  function BlankForm(year: int): (f: SiswaForm)
    ensures f.nis == "" && f.nama == "" && f.jenisKelamin == L
    ensures f.tempatLahir == "" && f.tanggalLahir == "" && f.alamat == ""
    ensures f.noTelepon == "" && f.email == "" && f.kelas == ""
    ensures f.tahunMasuk == year
  {
    SiswaForm("", "", L, "", "", "", "", "", "", year)
  }

  /** `s.split('T')[0]`: everything before the first 'T', or all of `s`. */
  function BeforeT(s: string): (r: string)
    ensures r <= s
    ensures 'T' !in r
    ensures |r| < |s| ==> s[|r|] == 'T'
  {
    if s == [] || s[0] == 'T' then []
    else [s[0]] + BeforeT(s[1..])
  }

  /** The date field: `tanggal_lahir ? tanggal_lahir.split('T')[0] : ''`; null
      and the empty string are falsy. */
  function DatePart(d: Option<string>): (r: string)
    ensures d.None? || d.value == "" ==> r == ""
    ensures d.Some? ==> r <= d.value && 'T' !in r
    ensures d.Some? && |r| < |d.value| ==> d.value[|r|] == 'T'
  {
    if d.Some? && d.value != "" then BeforeT(d.value) else ""
  }

  /** Text before its first 'T' comes back whole. */
  lemma {:induction false} BeforeTPrefix(date: string, rest: string)
    requires 'T' !in date
    requires rest == [] || rest[0] == 'T'
    ensures BeforeT(date + rest) == date
  {
    if date == [] {
      assert date + rest == rest;
    } else {
      assert (date + rest)[0] == date[0];
      assert date[0] in date;
      assert (date + rest)[1..] == date[1..] + rest;
      assert forall c :: c in date[1..] ==> c in date;
      BeforeTPrefix(date[1..], rest);
    }
  }

  /** An ISO timestamp loses its time: `date + 'T' + time` becomes `date`. */
  lemma DatePartOfTimestamp(date: string, time: string)
    requires 'T' !in date
    ensures DatePart(Some(date + "T" + time)) == date
  {
    assert date + "T" + time == date + ("T" + time);
    BeforeTPrefix(date, "T" + time);
  }

  /** A date already without a time is kept, so reopening a saved form leaves it as it was. */
  lemma DatePartIdempotent(d: Option<string>)
    ensures DatePart(Some(DatePart(d))) == DatePart(d)
  {
    var r := DatePart(d);
    assert r + [] == r;
    BeforeTPrefix(r, []);
  }

  /** `tahun_masuk || new Date().getFullYear()`: null and 0 are falsy. */
  function YearOr(stored: Option<int>, year: int): (y: int)
    ensures y == year <==> stored.None? || stored.value == 0 || stored.value == year
    ensures stored.Some? && stored.value != 0 ==> y == stored.value
  {
    if stored.Some? && stored.value != 0 then stored.value else year
  }

  /** The prefill effect: the edited record's fields with falsy ones replaced
      by `''` or this year, or the blank form when nothing is being edited. */
  function PrefillForm(editing: Option<Siswa>, year: int): (f: SiswaForm)
    ensures editing.None? ==> f == BlankForm(year)
    ensures editing.Some? ==>
              var e := editing.value;
              f.nis == e.nis && f.nama == e.nama && f.jenisKelamin == e.jenisKelamin
              && f.tempatLahir == OptOrElse(e.tempatLahir, "") && f.tanggalLahir == DatePart(e.tanggalLahir)
              && f.alamat == OptOrElse(e.alamat, "") && f.noTelepon == OptOrElse(e.noTelepon, "")
              && f.email == OptOrElse(e.email, "") && f.kelas == OptOrElse(e.kelas, "")
              && f.tahunMasuk == YearOr(e.tahunMasuk, year)
  {
    match editing
    case None => BlankForm(year)
    case Some(e) =>
      SiswaForm(e.nis, e.nama, e.jenisKelamin, OptOrElse(e.tempatLahir, ""), DatePart(e.tanggalLahir),
                OptOrElse(e.alamat, ""), OptOrElse(e.noTelepon, ""), OptOrElse(e.email, ""),
                OptOrElse(e.kelas, ""), YearOr(e.tahunMasuk, year))
  }

  /** Editing a record whose values are all present keeps every text field
      verbatim (the date without its time) and its entry year. */
  lemma PrefillKeepsPresentValues(e: Siswa, year: int)
    requires e.tempatLahir.Some? && e.alamat.Some? && e.noTelepon.Some? && e.email.Some? && e.kelas.Some?
    requires e.tahunMasuk.Some? && e.tahunMasuk.value != 0
    ensures var f := PrefillForm(Some(e), year);
            f.tempatLahir == e.tempatLahir.value && f.alamat == e.alamat.value
            && f.noTelepon == e.noTelepon.value && f.email == e.email.value
            && f.kelas == e.kelas.value && f.tahunMasuk == e.tahunMasuk.value
  {
  }

  /** What the dialog renders: nothing when closed, otherwise a form under the
      edit or the create title. */
  function View(isOpen: bool, editing: Option<Siswa>): (title: Option<string>)
    ensures title.None? <==> !isOpen
    ensures title.Some? ==> (title.value == EDIT_TITLE <==> editing.Some?)
    ensures isOpen && editing.None? ==> title == Some(CREATE_TITLE)
  {
    if !isOpen then None
    else if editing.Some? then Some(EDIT_TITLE)
    else Some(CREATE_TITLE)
  }

  class Dialog {
    var isSubmitting: bool
    var formData: SiswaForm

    constructor (year: int)
      ensures !isSubmitting && formData == BlankForm(year)
    {
      isSubmitting := false;
      formData := BlankForm(year);
    }

    /** The effect on `[editingSiswa, isOpen]`. */
    method Prefill(editing: Option<Siswa>, year: int)
      modifies this
      ensures formData == PrefillForm(editing, year)
      ensures isSubmitting == old(isSubmitting)
    {
      formData := PrefillForm(editing, year);
    }

    /** `handleSubmit`: the form goes to `onSubmit`; `onClose` runs only when
        that did not throw; submitting is off afterwards either way. */
    method HandleSubmit(submitThrew: bool) returns (submitted: SiswaForm, closes: bool)
      modifies this
      ensures submitted == old(formData)
      ensures closes <==> !submitThrew
      ensures !isSubmitting && formData == old(formData)
    {
      isSubmitting := true;
      submitted := formData;
      closes := !submitThrew;
      isSubmitting := false;
    }
  }
}
