/** `CurrencyRepositoryImpl`: the currency list mirrored from the DAO, the
    selected currency's number, and the lookup of the selected currency in
    the list. Each method gives what the flow emits for the current state. */
module Currency {
  import opened Results

  /** The fields of a currency row the app reads. */
  datatype CurrencyDto = CurrencyDto(code: string, number: string)

  /** `list.find { it.number == num }`: the first row with that number. */
  function Find(list: seq<CurrencyDto>, num: string): (r: Option<CurrencyDto>)
    ensures r.None? <==> forall i :: 0 <= i < |list| ==> list[i].number != num
    ensures r.Some? ==> r.value.number == num && r.value in list
    decreases |list|
  {
    if list == [] then None
    else if list[0].number == num then Some(list[0])
    else
      var r := Find(list[1..], num);
      assert forall i :: 1 <= i < |list| ==> list[i] == list[1..][i - 1];
      r
  }

  /** The row found is the first match: no earlier row has the number. */
  lemma {:induction false} FindIsFirst(list: seq<CurrencyDto>, num: string, i: int)
    requires 0 <= i < |list| && list[i].number == num
    ensures Find(list, num).Some?
    ensures exists j :: 0 <= j <= i && list[j] == Find(list, num).value &&
                        forall k :: 0 <= k < j ==> list[k].number != num
    decreases |list|
  {
    if list[0].number != num {
      FindIsFirst(list[1..], num, i - 1);
      var j :| 0 <= j <= i - 1 && list[1..][j] == Find(list[1..], num).value &&
               forall k :: 0 <= k < j ==> list[1..][k].number != num;
      assert list[j + 1] == list[1..][j];
      forall k | 0 <= k < j + 1 ensures list[k].number != num {
        if k > 0 { assert list[k] == list[1..][k - 1]; }
      }
    }
  }

  /** With distinct numbers, looking a row's number up gives that row. */
  lemma FindDistinct(list: seq<CurrencyDto>, i: int)
    requires 0 <= i < |list|
    requires forall j, k :: 0 <= j < k < |list| ==> list[j].number != list[k].number
    ensures Find(list, list[i].number) == Some(list[i])
  {
    FindIsFirst(list, list[i].number, i);
  }

  class CurrencyRepositoryImpl {
    var currencyList: seq<CurrencyDto>
    var cacheNumber: string

    /** An empty list and no selected number. */
    constructor()
      ensures currencyList == [] && cacheNumber == ""
    {
      currencyList := [];
      cacheNumber := "";
    }

    /** The collector started in `init`: each list the DAO emits replaces
        the mirrored one. */
    method OnDaoCurrencies(list: seq<CurrencyDto>)
      modifies this
      ensures currencyList == list && cacheNumber == old(cacheNumber)
    {
      currencyList := list;
    }

    /** `getCurrencies`: loading first, then the current list. */
    method GetCurrencies() returns (emitted: seq<Result<seq<CurrencyDto>>>)
      ensures |emitted| == 2 && emitted[0].Loading?
      ensures emitted[1] == Success(currencyList)
    {
      emitted := [Loading, Success(currencyList)];
    }

    /** `getSelectedCacheCurrency` for the current list and number: the
        first row with the selected number; with none, the lookup throws and
        the `catch` builds an error without emitting it, so nothing is
        emitted. */
    method GetSelectedCacheCurrency() returns (emitted: Option<Result<CurrencyDto>>)
      ensures emitted.None? <==> forall i :: 0 <= i < |currencyList| ==> currencyList[i].number != cacheNumber
      ensures emitted.Some? ==> emitted.value.Success? && emitted.value == Success(Find(currencyList, cacheNumber).value)
    {
      var found := Find(currencyList, cacheNumber);
      if found.None? {
        emitted := None;
      } else {
        emitted := Some(Success(found.value));
      }
    }

    /** `setSelectedCacheCurrency`: only the number changes. */
    method SetSelectedCacheCurrency(num: string)
      modifies this
      ensures cacheNumber == num && currencyList == old(currencyList)
    {
      cacheNumber := num;
    }
  }
}
