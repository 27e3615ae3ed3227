/** The output panel of OutputPanel.tsx: the text-based entries of the
    result list, the action-toolbar predicate, and the choice of what the
    panel shows for a session. */
module OutputPanel {
  import opened Wrappers
  import opened Types
  import opened Context
  import opened Effects
  import Modes
  import Sanitize
  import opened Supervisor
  import opened SupervisorProofs

  const TableKey := "Table"
  const ChartKey := "Chart"

  // ---------------------------------------------------------------------
  // Text-based entries
  // ---------------------------------------------------------------------

  /** The entries that have a `text` field, in order. */
  function TextItems(ts: seq<Timecode>): (r: seq<Timecode>)
    ensures |r| <= |ts|
    ensures forall i | 0 <= i < |r| :: HasText(r[i])
    decreases |ts|
  {
    if ts == [] then [] else (if HasText(ts[0]) then [ts[0]] else []) + TextItems(ts[1..])
  }

  /** `timecodeList?.filter(item => 'text' in item) || []`. */
  function TextBasedTimecodes(list: Option<seq<Timecode>>): (r: seq<Timecode>)
    ensures list.None? ==> r == []
    ensures list.Some? ==> |r| <= |list.value|
    ensures forall i | 0 <= i < |r| :: HasText(r[i])
  {
    match list
    case None => []
    case Some(ts) => TextItems(ts)
  }

  /** Filtering a concatenation filters each part: the entries keep their
      relative order. */
  lemma {:induction false} TextItemsConcat(a: seq<Timecode>, b: seq<Timecode>)
    ensures TextItems(a + b) == TextItems(a) + TextItems(b)
    decreases |a|
  {
    if a == [] {
      assert a + b == b;
    } else {
      assert (a + b)[0] == a[0];
      assert (a + b)[1..] == a[1..] + b;
      TextItemsConcat(a[1..], b);
    }
  }

  /** An entry is kept exactly when it is in the list and has a text. */
  lemma {:induction false} TextItemsMembership(ts: seq<Timecode>, x: Timecode)
    ensures x in TextItems(ts) <==> x in ts && HasText(x)
    decreases |ts|
  {
    if ts != [] {
      TextItemsMembership(ts[1..], x);
      assert ts == [ts[0]] + ts[1..];
      assert x in ts <==> x == ts[0] || x in ts[1..];
    }
  }

  /** The filter keeps everything exactly when every entry has a text, and
      filtering twice is filtering once. */
  lemma {:induction false} TextItemsAllOrFewer(ts: seq<Timecode>)
    ensures TextItems(ts) == ts <==> forall i | 0 <= i < |ts| :: HasText(ts[i])
    ensures TextItems(TextItems(ts)) == TextItems(ts)
    decreases |ts|
  {
    if ts != [] {
      TextItemsAllOrFewer(ts[1..]);
      var rest := TextItems(ts[1..]);
      if HasText(ts[0]) {
        assert TextItems(ts) == [ts[0]] + rest;
        if TextItems(ts) == ts {
          assert rest == ts[1..];
          forall i | 0 <= i < |ts|
            ensures HasText(ts[i])
          {
            if i > 0 {
              assert ts[i] == ts[1..][i - 1];
            }
          }
        }
        if forall i | 0 <= i < |ts| :: HasText(ts[i]) {
          assert forall i | 0 <= i < |ts[1..]| :: HasText(ts[1..][i]) by {
            forall i | 0 <= i < |ts[1..]|
              ensures HasText(ts[1..][i])
            {
              assert ts[1..][i] == ts[i + 1];
            }
          }
          assert ts == [ts[0]] + ts[1..];
        }
        TextItemsConcat([ts[0]], rest);
        assert TextItems([ts[0]]) == [ts[0]] by {
          assert [ts[0]][1..] == [];
        }
      } else {
        assert TextItems(ts) == rest;
        assert |rest| < |ts|;
      }
    }
  }

  /** Two lists whose entries agree, position by position, on having a text
      have as many text-based entries. */
  lemma {:induction false} TextItemsCountByPresence(a: seq<Timecode>, b: seq<Timecode>)
    requires |a| == |b|
    requires forall i | 0 <= i < |a| :: HasText(a[i]) <==> HasText(b[i])
    ensures |TextItems(a)| == |TextItems(b)|
    decreases |a|
  {
    if a != [] {
      assert HasText(a[0]) <==> HasText(b[0]);
      TextItemsCountByPresence(a[1..], b[1..]) by {
        forall i | 0 <= i < |a[1..]|
          ensures HasText(a[1..][i]) <==> HasText(b[1..][i])
        {
          assert a[1..][i] == a[i + 1] && b[1..][i] == b[i + 1];
        }
      }
    }
  }

  /** Sanitising a result list keeps which entries are text-based, so it
      changes neither the number of text-based entries nor the toolbar. */
  lemma SanitizeKeepsTextBased(ts: seq<Timecode>)
    ensures |TextItems(Sanitize.SanitizeTimecodes(ts))| == |TextItems(ts)|
  {
    TextItemsCountByPresence(Sanitize.SanitizeTimecodes(ts), ts);
  }

  // ---------------------------------------------------------------------
  // The action toolbar
  // ---------------------------------------------------------------------

  /** `showActionToolbar`: never for Table or Chart, and never without a
      non-empty list. */
  predicate ShowActionToolbar(s: AppState)
    ensures ShowActionToolbar(s) ==> s.timecodeList.Some? && |s.timecodeList.value| > 0
    ensures ShowActionToolbar(s) ==> s.activeMode != Some(TableKey) && s.activeMode != Some(ChartKey)
  {
    |TextBasedTimecodes(s.timecodeList)| > 0 && s.activeMode != Some(TableKey) && s.activeMode != Some(ChartKey)
  }

  /** The toolbar is shown exactly when some entry of the list has a text
      and the active mode is neither Table nor Chart (no active mode
      included). */
  lemma ToolbarIff(s: AppState)
    ensures ShowActionToolbar(s) <==>
      && s.timecodeList.Some?
      && (exists x | x in s.timecodeList.value :: HasText(x))
      && s.activeMode != Some(TableKey) && s.activeMode != Some(ChartKey)
  {
    if s.timecodeList.Some? {
      var ts := s.timecodeList.value;
      var r := TextItems(ts);
      if |r| > 0 {
        TextItemsMembership(ts, r[0]);
      }
      forall x | x in ts && HasText(x)
        ensures |r| > 0
      {
        TextItemsMembership(ts, x);
      }
    }
  }

  // ---------------------------------------------------------------------
  // What the panel shows
  // ---------------------------------------------------------------------

  datatype View =
    | Loading                                      // spinner with Cancel
    | ErrorView(message: string)
    | TextView(text: string)
    | TableView(rows: seq<Timecode>)
    | ChartView(data: seq<Timecode>, yLabel: string)
    | ListView(items: seq<Timecode>)
    | SentenceView(items: seq<Timecode>)
    | Nothing

  /** `modes[activeMode]?.isList` for a truthy active mode. */
  predicate IsListMode(key: string) {
    Modes.Lookup(key).Some? && Modes.Lookup(key).value.isList
  }

  /** `renderContent()`: loading first, then a truthy error, a truthy text,
      a result list (an empty list included), and nothing. */
  function RenderContent(s: AppState): (v: View)
    ensures v.Loading? <==> s.isLoading
    ensures v.ErrorView? ==> Truthy(s.apiError) && s.apiError == Some(v.message)
    ensures v.TextView? ==> Truthy(s.textResponse) && s.textResponse == Some(v.text)
    ensures v.TableView? ==> Some(v.rows) == s.timecodeList
    ensures v.ChartView? ==> Some(v.data) == s.timecodeList && v.yLabel == s.chartLabel
    ensures v.ListView? || v.SentenceView? ==> s.timecodeList.Some? && forall i | 0 <= i < |v.items| :: HasText(v.items[i])
  {
    if s.isLoading then Loading
    else if Truthy(s.apiError) then ErrorView(s.apiError.value)
    else if Truthy(s.textResponse) then TextView(s.textResponse.value)
    else
      match s.timecodeList
      case None => Nothing
      case Some(list) =>
        if s.activeMode == Some(TableKey) then TableView(list)
        else if s.activeMode == Some(ChartKey) then ChartView(list, s.chartLabel)
        else if Truthy(s.activeMode) && IsListMode(s.activeMode.value) then ListView(TextBasedTimecodes(s.timecodeList))
        else SentenceView(TextBasedTimecodes(s.timecodeList))
  }

  /** With a result list on show, each of the eight modes picks its view:
      Table a table, Chart a chart, the four list modes a list, Paragraph
      and Haiku sentence buttons. */
  lemma TimecodeViewByMode(s: AppState, k: string)
    requires !s.isLoading && !Truthy(s.apiError) && !Truthy(s.textResponse)
    requires s.timecodeList.Some? && s.activeMode == Some(k) && k in Modes.Keys
    ensures RenderContent(s).TableView? <==> k == TableKey
    ensures RenderContent(s).ChartView? <==> k == ChartKey
    ensures RenderContent(s).ListView? <==> k in Modes.ListKeys
    ensures RenderContent(s).SentenceView? <==> k == "Paragraph" || k == "Haiku"
  {
    var list := s.timecodeList.value;
    ViewKeysDistinct();
    if k == TableKey {
      assert s.activeMode == Some(TableKey);
      assert RenderContent(s) == TableView(list);
    } else if k == ChartKey {
      assert s.activeMode != Some(TableKey) && s.activeMode == Some(ChartKey);
      assert RenderContent(s) == ChartView(list, s.chartLabel);
    } else if k in Modes.ListKeys {
      ListModeView(s, k);
    } else {
      IsListModeIff(k);
      OtherKeys(k);
      SentenceModeView(s, k);
    }
  }

  /** Table and Chart are two keys, neither a list mode nor a sentence
      mode. */
  lemma ViewKeysDistinct()
    ensures TableKey != ChartKey
    ensures TableKey !in Modes.ListKeys && ChartKey !in Modes.ListKeys
    ensures TableKey != "Paragraph" && TableKey != "Haiku" && ChartKey != "Paragraph" && ChartKey != "Haiku"
  {
  }

  /** A list mode shows the list view. */
  lemma ListModeView(s: AppState, k: string)
    requires !s.isLoading && !Truthy(s.apiError) && !Truthy(s.textResponse)
    requires s.timecodeList.Some? && s.activeMode == Some(k)
    requires k in Modes.ListKeys
    ensures RenderContent(s) == ListView(TextBasedTimecodes(s.timecodeList))
  {
    Modes.ListKeyIsNotTableOrChart(k);
    IsListModeIff(k);
    assert s.activeMode != Some(TableKey) && s.activeMode != Some(ChartKey);
    assert Truthy(s.activeMode) && IsListMode(s.activeMode.value);
  }

  /** A mode that is none of Table, Chart and a list mode shows the
      sentence view. */
  lemma SentenceModeView(s: AppState, k: string)
    requires !s.isLoading && !Truthy(s.apiError) && !Truthy(s.textResponse)
    requires s.timecodeList.Some? && s.activeMode == Some(k)
    requires !IsListMode(k) && k != TableKey && k != ChartKey
    ensures RenderContent(s) == SentenceView(TextBasedTimecodes(s.timecodeList))
  {
    assert s.activeMode != Some(TableKey) && s.activeMode != Some(ChartKey);
    assert !IsListMode(s.activeMode.value);
  }

  /** Of the eight keys, the two that are neither Table, Chart nor a list
      mode are Paragraph and Haiku. */
  lemma OtherKeys(k: string)
    requires k in Modes.Keys
    ensures k != TableKey && k != ChartKey && k !in Modes.ListKeys <==> k == "Paragraph" || k == "Haiku"
  {
    var i :| 0 <= i < |Modes.Keys| && Modes.Keys[i] == k;
    if i == 0 {} else if i == 1 {} else if i == 2 {} else if i == 3 {}
    else if i == 4 {} else if i == 5 {} else if i == 6 {} else {}
  }

  /** A key is a list mode exactly when it is one of the four list keys. */
  lemma IsListModeIff(k: string)
    ensures IsListMode(k) <==> k in Modes.ListKeys
  {
    if k in Modes.ListKeys {
      Modes.ListKeysAreKeys(k);
    }
  }

  /** A result list is shown as a list or as sentences through its
      text-based entries only; a table and a chart get the whole list. */
  lemma ViewItemsAreTextBased(s: AppState)
    ensures RenderContent(s).ListView? || RenderContent(s).SentenceView? ==>
      forall i | 0 <= i < |RenderContent(s).items| :: HasText(RenderContent(s).items[i])
    ensures RenderContent(s).TableView? ==> Some(RenderContent(s).rows) == s.timecodeList
    ensures RenderContent(s).ChartView? ==> Some(RenderContent(s).data) == s.timecodeList
  {
  }

  /** What the panel shows once loading is over, whatever the outputs hold
      (a session can hold an error beside a list): a non-empty error wins;
      a non-empty text is shown only without one; a stored list only when
      neither is shown; and nothing when none of the three is there. */
  lemma ViewOfOutputs(s: AppState)
    requires !s.isLoading
    ensures !RenderContent(s).Loading?
    ensures RenderContent(s).ErrorView? <==> Truthy(s.apiError)
    ensures RenderContent(s).ErrorView? ==> s.apiError == Some(RenderContent(s).message)
    ensures RenderContent(s).TextView? <==> !Truthy(s.apiError) && Truthy(s.textResponse)
    ensures RenderContent(s).TextView? ==> s.textResponse == Some(RenderContent(s).text)
    ensures RenderContent(s).TableView? || RenderContent(s).ChartView? || RenderContent(s).ListView? || RenderContent(s).SentenceView?
      <==> !Truthy(s.apiError) && !Truthy(s.textResponse) && s.timecodeList.Some?
    ensures RenderContent(s) == Nothing <==> !Truthy(s.apiError) && !Truthy(s.textResponse) && s.timecodeList.None?
  {
  }

  /** After a request that stays current, the panel no longer spins and
      shows the request's own outcome, never an earlier one: its error, its
      text, or its list, as the expected outputs say. */
  lemma ViewAfterRequest(m: Machine, mode: string, requestId: int, env: Env)
    requires ValidEnv(env) && env.replacedDuring.None? && m.ui.file.Some?
    ensures var s := ApplyAll(m, OnModeSelect(m.ui, mode, requestId, env)).ui;
      var o := ExpectedOutputs(m.ui, mode, env);
      && !RenderContent(s).Loading?
      && (RenderContent(s).ErrorView? ==> o.apiError == Some(RenderContent(s).message))
      && (RenderContent(s).TextView? ==> o.textResponse == Some(RenderContent(s).text))
      && (o.timecodeList.Some? <==>
           RenderContent(s).TableView? || RenderContent(s).ChartView? || RenderContent(s).ListView? || RenderContent(s).SentenceView?)
  {
    CurrentRequestOutcome(m, mode, requestId, env);
    var s := ApplyAll(m, OnModeSelect(m.ui, mode, requestId, env)).ui;
    ViewOfOutputs(s);
  }

  /** While a request loads the panel shows the spinner with Cancel,
      whatever else the session holds. */
  lemma LoadingHidesEverything(s: AppState)
    requires s.isLoading
    ensures RenderContent(s) == Loading
    ensures RenderContent(s.(apiError := None, textResponse := None, timecodeList := None)) == Loading
  {
  }
}
