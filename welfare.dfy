// The welfare schemes page: the scheme list, its search and category filter,
// and the saved-schemes bookmark list.

module Welfare {
  import opened Text
  import opened Lists

  datatype Scheme = Scheme(
    id: int,
    title: string,
    category: string,
    eligibility: string,
    benefits: string,
    deadline: string,
    ministry: string,
    documents: seq<string>,
    url: string)

  const PmJay := Scheme(1, "PM-JAY Health Insurance", "Healthcare",
    "BPL families, low-income households",
    "Free health insurance coverage up to ₹5 lakhs per family per year",
    "2025-12-31", "Ministry of Health and Family Welfare",
    ["Aadhaar Card", "Income Certificate", "Ration Card"], "https://pmjay.gov.in")
  const PmKisan := Scheme(2, "PM Kisan Samman Nidhi", "Agriculture",
    "Small and marginal farmers",
    "Income support of ₹6,000 per year to eligible farmer families",
    "2025-06-30", "Ministry of Agriculture & Farmers Welfare",
    ["Aadhaar Card", "Land Records", "Bank Account Details"], "https://pmkisan.gov.in")
  const PmAwas := Scheme(3, "PM Awas Yojana", "Housing",
    "Homeless individuals, BPL families",
    "Financial assistance for house construction",
    "2025-09-15", "Ministry of Housing and Urban Affairs",
    ["Aadhaar Card", "Income Certificate", "Land Documents"], "https://pmaymis.gov.in")
  const Sukanya := Scheme(4, "Sukanya Samriddhi Yojana", "Education",
    "Parents/guardians of girl child below 10 years",
    "Tax-free investment with high interest rate for girl child education",
    "Ongoing", "Ministry of Finance",
    ["Girl Child Birth Certificate", "Parent/Guardian ID Proof"], "https://www.india.gov.in/sukanya-samriddhi-account")
  const NationalPension := Scheme(5, "National Pension Scheme", "Social Security",
    "Indian citizens between 18-65 years",
    "Pension benefits after retirement",
    "Ongoing", "Ministry of Finance",
    ["Aadhaar Card", "PAN Card", "Bank Account Details"], "https://www.npscra.nsdl.co.in")

  /** welfareSchemes, in page order. */
  const WelfareSchemes: seq<Scheme> := [PmJay, PmKisan, PmAwas, Sukanya, NationalPension]

  /** The search term occurs, ignoring case, in the title, the benefits or the category. */
  predicate MatchesSearch(scheme: Scheme, searchTerm: string) {
    Contains(Lower(scheme.title), Lower(searchTerm)) ||
    Contains(Lower(scheme.benefits), Lower(searchTerm)) ||
    Contains(Lower(scheme.category), Lower(searchTerm))
  }

  /** The filter is "all" or exactly the scheme's category, case included. */
  predicate MatchesCategory(scheme: Scheme, categoryFilter: string) {
    categoryFilter == "all" || scheme.category == categoryFilter
  }

  /** The filteredSchemes test for one scheme. */
  predicate Shown(scheme: Scheme, searchTerm: string, categoryFilter: string) {
    MatchesSearch(scheme, searchTerm) && MatchesCategory(scheme, categoryFilter)
  }

  /** filteredSchemes over a scheme list: the schemes passing both tests, in list order. */
  function FilterSchemes(schemes: seq<Scheme>, searchTerm: string, categoryFilter: string): (shown: seq<Scheme>)
    ensures forall s :: s in shown <==> s in schemes && MatchesSearch(s, searchTerm) && MatchesCategory(s, categoryFilter)
    ensures IsSubsequence(shown, schemes)
  {
    Filter(schemes, s => Shown(s, searchTerm, categoryFilter))
  }

  /** An empty search with the "all" filter shows every scheme, in order. */
  lemma EmptySearchShowsAll(schemes: seq<Scheme>)
    ensures FilterSchemes(schemes, "", "all") == schemes
  {
    forall s | s in schemes ensures Shown(s, "", "all") {
      ContainsEmpty(Lower(s.title));
    }
    FilterKeepsAll(schemes, s => Shown(s, "", "all"));
  }

  /** On the page that is all five schemes. */
  lemma EmptySearchShowsAllFive()
    ensures FilterSchemes(WelfareSchemes, "", "all") == WelfareSchemes
    ensures |FilterSchemes(WelfareSchemes, "", "all")| == 5
  {
    EmptySearchShowsAll(WelfareSchemes);
  }

  /** Two search terms that differ only in letter case show the same schemes. */
  lemma SearchIgnoresCase(schemes: seq<Scheme>, a: string, b: string, categoryFilter: string)
    requires Lower(a) == Lower(b)
    ensures FilterSchemes(schemes, a, categoryFilter) == FilterSchemes(schemes, b, categoryFilter)
  {
    FilterSameTest(schemes, s => Shown(s, a, categoryFilter), s => Shown(s, b, categoryFilter));
  }

  /**
   * The category filter is compared as written: a filter that spells a
   * scheme's category in other letter case hides the scheme, although the
   * same spelling as a search term finds it.
   */
  lemma CategoryIsCaseSensitive(schemes: seq<Scheme>, scheme: Scheme, spelling: string)
    requires scheme in schemes
    requires Lower(spelling) == Lower(scheme.category)
    requires spelling != scheme.category && spelling != "all"
    ensures scheme !in FilterSchemes(schemes, "", spelling)
    ensures scheme in FilterSchemes(schemes, spelling, "all")
  {
    ContainsSelf(Lower(scheme.category));
  }

  /** The state the WelfareSchemes page keeps. */
  class WelfareState {
    var searchTerm: string
    var categoryFilter: string
    var savedSchemes: seq<int>

    constructor()
      ensures searchTerm == "" && categoryFilter == "all" && savedSchemes == []
    {
      searchTerm := "";
      categoryFilter := "all";
      savedSchemes := [];
    }

    /** The schemes the page lists for the current search and filter. */
    function Visible(): (shown: seq<Scheme>)
      reads this
      ensures forall s :: s in shown <==> s in WelfareSchemes && Shown(s, searchTerm, categoryFilter)
    {
      FilterSchemes(WelfareSchemes, searchTerm, categoryFilter)
    }

    /** The search box. */
    method SetSearchTerm(value: string)
      modifies this
      ensures searchTerm == value
      ensures categoryFilter == old(categoryFilter) && savedSchemes == old(savedSchemes)
    {
      searchTerm := value;
    }

    /** The category select. */
    method SetCategoryFilter(value: string)
      modifies this
      ensures categoryFilter == value
      ensures searchTerm == old(searchTerm) && savedSchemes == old(savedSchemes)
    {
      categoryFilter := value;
    }

    /** saveScheme: a saved id is removed everywhere it occurs, an unsaved one is appended. */
    method SaveScheme(id: int)
      modifies this
      ensures savedSchemes == Toggle(old(savedSchemes), id)
      ensures id in old(savedSchemes) ==> savedSchemes == RemoveAll(old(savedSchemes), id)
      ensures id !in old(savedSchemes) ==> savedSchemes == old(savedSchemes) + [id]
      ensures id in savedSchemes <==> id !in old(savedSchemes)
      ensures searchTerm == old(searchTerm) && categoryFilter == old(categoryFilter)
    {
      if id in savedSchemes {
        savedSchemes := RemoveAll(savedSchemes, id);
      } else {
        savedSchemes := savedSchemes + [id];
      }
    }
  }
}
