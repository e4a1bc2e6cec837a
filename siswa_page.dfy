/** The student list of src/pages/SiswaPage.tsx: the paging arithmetic of its
    pager, the search debounce, the fetch that replaces list and totals, and the
    request dispatch of submit and delete. The effect on `[page, searchDebounce]`
    is modelled by every state change reporting whether one of the two changed,
    in which case the page calls `FetchSiswa` again. */
module SiswaPage {
  import opened Common
  import opened Api

  const PAGE_LIMIT := 10
  const DEBOUNCE_MS := 300

  /** The request `handleSiswaSubmit` sends. */
  datatype SiswaRequest = UpdateSiswa(id: int, form: SiswaForm) | CreateSiswa(form: SiswaForm)

  /** The previous-page button: `Math.max(1, p - 1)`. */
  function PrevPage(p: int): (r: int)
    ensures r >= 1
    ensures p > 1 ==> r == p - 1
    ensures p <= 1 ==> r == 1
  {
    if p - 1 > 1 then p - 1 else 1
  }

  /** The next-page button: `Math.min(totalPages, p + 1)`. */
  function NextPage(p: int, totalPages: int): (r: int)
    ensures r <= totalPages
    ensures p < totalPages ==> r == p + 1
    ensures p >= totalPages ==> r == totalPages
  {
    if p + 1 < totalPages then p + 1 else totalPages
  }

  /** `Array.from({ length: n }, (_, i) => i + 1)`: the page numbers 1..n in order. */
  function PageButtons(n: int): (r: seq<int>)
    ensures |r| == if n > 0 then n else 0
    ensures forall i :: 0 <= i < |r| ==> r[i] == i + 1
    decreases n
  {
    if n <= 0 then [] else PageButtons(n - 1) + [n]
  }

  /** The pager is rendered only with more than one page and not while loading. */
  predicate ShowPager(totalPages: int, isLoading: bool)
  {
    totalPages > 1 && !isLoading
  }

  /** From any page in range, all three kinds of button keep the page in
      1..totalPages, and the buttons a disabled state blocks would not move it. */
  lemma PagerStaysInRange(p: int, totalPages: int)
    requires 1 <= p <= totalPages
    ensures 1 <= PrevPage(p) <= totalPages && 1 <= NextPage(p, totalPages) <= totalPages
    ensures forall q :: q in PageButtons(totalPages) ==> 1 <= q <= totalPages
    ensures p == 1 ==> PrevPage(p) == p
    ensures p == totalPages ==> NextPage(p, totalPages) == p
  {
    var buttons := PageButtons(totalPages);
    forall q | q in buttons
      ensures 1 <= q <= totalPages
    {
      var i :| 0 <= i < |buttons| && buttons[i] == q;
    }
  }

  class SiswaList {
    var siswaList: seq<Siswa>
    var isLoading: bool
    var showModal: bool
    var editingSiswa: Option<Siswa>
    var page: int
    var total: int
    var totalPages: int
    var search: string
    var searchDebounce: string
    /** The debounce timer of the last change of `search` is pending. */
    var debounceArmed: bool

    /** The page number never drops below 1. */
    predicate Valid()
      reads this
    {
      page >= 1
    }

    /** Mounting arms the debounce timer of the initial search and runs the
        fetch effect once. */
    constructor ()
      ensures Valid()
      ensures siswaList == [] && isLoading && !showModal && editingSiswa == None
      ensures page == 1 && total == 0 && totalPages == 0
      ensures search == "" && searchDebounce == "" && debounceArmed
    {
      siswaList, isLoading, showModal, editingSiswa := [], true, false, None;
      page, total, totalPages := 1, 0, 0;
      search, searchDebounce, debounceArmed := "", "", true;
    }

    /** Typing in the search box: a changed value re-runs the debounce effect,
        which clears the pending timer and arms a new one. */
    method TypeSearch(s: string)
      modifies this
      ensures search == s
      ensures debounceArmed == (old(debounceArmed) || s != old(search))
      ensures siswaList == old(siswaList) && isLoading == old(isLoading) && showModal == old(showModal)
      ensures editingSiswa == old(editingSiswa) && page == old(page) && total == old(total)
      ensures totalPages == old(totalPages) && searchDebounce == old(searchDebounce)
    {
      if s != search {
        debounceArmed := true;
      }
      search := s;
    }

    /** The 300 ms timer fires: the debounced search takes the current text and
        the page resets to 1; the list is refetched when either changed. */
    method DebounceFires() returns (refetch: bool)
      requires debounceArmed
      modifies this
      ensures Valid()
      ensures searchDebounce == old(search) && page == 1 && !debounceArmed
      ensures refetch <==> old(page) != 1 || old(searchDebounce) != old(search)
      ensures siswaList == old(siswaList) && isLoading == old(isLoading) && showModal == old(showModal)
      ensures editingSiswa == old(editingSiswa) && total == old(total) && totalPages == old(totalPages)
      ensures search == old(search)
    {
      refetch := page != 1 || searchDebounce != search;
      searchDebounce := search;
      page := 1;
      debounceArmed := false;
    }

    /** `fetchSiswa`: asks for the current page and debounced search; a reply
        with `success` and `data` replaces list, total and page count together,
        anything else keeps all three; loading is off afterwards. */
    method FetchSiswa(c: Call<SiswaListResponse>) returns (query: SiswaQuery)
      modifies this
      ensures query == SiswaQuery(old(page), PAGE_LIMIT, old(searchDebounce))
      ensures c.Returned? && Succeeded(c.body) ==>
                var d := c.body.data.value;
                siswaList == d.data && total == d.total && totalPages == d.totalPages
      ensures !(c.Returned? && Succeeded(c.body)) ==>
                siswaList == old(siswaList) && total == old(total) && totalPages == old(totalPages)
      ensures !isLoading
      ensures showModal == old(showModal) && editingSiswa == old(editingSiswa) && page == old(page)
      ensures search == old(search) && searchDebounce == old(searchDebounce)
      ensures debounceArmed == old(debounceArmed)
    {
      isLoading := true;
      query := GetAllQuery(Some(page), Some(PAGE_LIMIT), Some(searchDebounce));
      if c.Returned? && Succeeded(c.body) {
        var d := c.body.data.value;
        siswaList, total, totalPages := d.data, d.total, d.totalPages;
      }
      isLoading := false;
    }

    /** `handleSiswaSubmit`: update the edited student by id, or create one;
        once that call returns (whatever its `success`) the list is refetched,
        and when it throws the exception reaches the dialog instead. */
    method HandleSiswaSubmit(form: SiswaForm, c: Call<Siswa>) returns (request: SiswaRequest, refetch: bool, threw: bool)
      ensures request == if editingSiswa.Some? then UpdateSiswa(editingSiswa.value.id, form) else CreateSiswa(form)
      ensures threw <==> c.Threw?
      ensures refetch <==> !threw
    {
      if editingSiswa.Some? {
        request := UpdateSiswa(editingSiswa.value.id, form);
      } else {
        request := CreateSiswa(form);
      }
      threw := c.Threw?;
      refetch := !threw;
    }

    /** `handleDelete`: a delete declined at the confirmation prompt sends no
        request; the list is refetched only after a reply with `success`. */
    method HandleDelete(id: int, confirmed: bool, c: Call<()>) returns (request: Option<int>, refetch: bool)
      ensures request == if confirmed then Some(id) else None
      ensures refetch <==> confirmed && c.Returned? && c.body.success
    {
      if !confirmed {
        return None, false;
      }
      request := Some(id);
      refetch := c.Returned? && c.body.success;
    }

    /** The previous-page button of a visible pager. */
    method ClickPrev() returns (refetch: bool)
      requires Valid() && ShowPager(totalPages, isLoading)
      modifies this`page
      ensures Valid()
      ensures page == PrevPage(old(page))
      ensures refetch <==> page != old(page)
    {
      var p := PrevPage(page);
      refetch := p != page;
      page := p;
    }

    /** The next-page button of a visible pager. */
    method ClickNext() returns (refetch: bool)
      requires Valid() && ShowPager(totalPages, isLoading)
      modifies this`page
      ensures Valid()
      ensures page == NextPage(old(page), totalPages)
      ensures refetch <==> page != old(page)
    {
      var p := NextPage(page, totalPages);
      refetch := p != page;
      page := p;
    }

    /** One of the numbered buttons of a visible pager. */
    method ClickPage(p: int) returns (refetch: bool)
      requires Valid() && ShowPager(totalPages, isLoading) && p in PageButtons(totalPages)
      modifies this`page
      ensures Valid()
      ensures page == p && 1 <= page <= totalPages
      ensures refetch <==> page != old(page)
    {
      PagerStaysInRange(1, totalPages);
      refetch := p != page;
      page := p;
    }

    /** `openCreateModal`: nothing under edit. */
    method OpenCreateModal()
      modifies this`editingSiswa, this`showModal
      ensures editingSiswa == None && showModal
    {
      editingSiswa, showModal := None, true;
    }

    /** `openEditModal`: the student under edit. */
    method OpenEditModal(s: Siswa)
      modifies this`editingSiswa, this`showModal
      ensures editingSiswa == Some(s) && showModal
    {
      editingSiswa, showModal := Some(s), true;
    }

    /** The dialog's `onClose`: hides it and keeps the student under edit. */
    method CloseModal()
      modifies this`showModal
      ensures !showModal
    {
      showModal := false;
    }
  }
}
