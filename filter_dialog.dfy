/**
  The filter/search dialog of ui/filter_dialog.py, reduced to what `get_filters`
  reads from its widgets: the category combo box's current text, the two date
  editors' dates printed as `yyyy-MM-dd`, and the limit spin box's value.
  The result is the query contract handed on to `fetch_transactions`: a map
  holding only the criteria that are set, and an optional row limit.
 */
module FilterDialog {
  import opened Wrappers
  import opened PyStr
  import opened IsoDate

  const CategoryKey: string := "category"
  const StartDateKey: string := "start_date"
  const EndDateKey: string := "end_date"

  /** The spin box's range; its special value 0 is shown as "No limit". */
  const LimitMax: int := 100000
  /** The spin box's initial value. */
  const DefaultLimit: int := 100

  /** `get_filters`: start from an empty map, add each criterion that is not
      empty, and turn a limit of 0 into "no limit". */
  method GetFilters(categoryText: string, startDate: string, endDate: string, limitValue: int)
    returns (filters: map<string, string>, limit: Option<int>)
    ensures filters.Keys <= {CategoryKey, StartDateKey, EndDateKey}
    ensures CategoryKey in filters <==> !IsBlank(categoryText)
    ensures CategoryKey in filters ==> filters[CategoryKey] == Strip(categoryText) != ""
    ensures StartDateKey in filters <==> startDate != ""
    ensures StartDateKey in filters ==> filters[StartDateKey] == startDate
    ensures EndDateKey in filters <==> endDate != ""
    ensures EndDateKey in filters ==> filters[EndDateKey] == endDate
    ensures limit.None? <==> limitValue == 0
    ensures limit.Some? ==> limit.value == limitValue
    ensures 0 <= limitValue <= LimitMax ==> limit.None? || 1 <= limit.value <= LimitMax
  {
    filters := map[];
    var cat := Strip(categoryText);
    StripEmptyIffBlank(categoryText);
    if cat != "" {
      filters := filters[CategoryKey := cat];
    }
    if startDate != "" {
      filters := filters[StartDateKey := startDate];
    }
    if endDate != "" {
      filters := filters[EndDateKey := endDate];
    }
    var lim := limitValue;
    if lim == 0 {
      limit := None;
    } else {
      limit := Some(lim);
    }
  }

  /** The combo box's entries: a blank first entry, then the category names. */
  function CategoryItems(categories: seq<string>): (items: seq<string>)
    ensures |items| == |categories| + 1 && items[0] == ""
    ensures items[1..] == categories
  {
    [""] + categories
  }

  /** The dialog accepted as it opens: the blank first category selected, the
      date editors on `start` (a month ago) and `end` (today), and the limit at
      its initial value. The result filters on the date range alone, whatever
      the category list, even an empty one. */
  method InitialFilters(categories: seq<string>, start: CalendarDate, end: CalendarDate)
    returns (filters: map<string, string>, limit: Option<int>)
    requires ValidDate(start) && ValidDate(end)
    ensures filters == map[StartDateKey := FormatIsoDate(start), EndDateKey := FormatIsoDate(end)]
    ensures limit == Some(DefaultLimit)
  {
    var items := CategoryItems(categories);
    filters, limit := GetFilters(items[0], FormatIsoDate(start), FormatIsoDate(end), DefaultLimit);
  }
}
