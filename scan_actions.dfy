/** The buttons src/components/Scan/ScanActions.tsx offers for a scan, by status. */
module ScanActions {
  import opened Common
  import opened Types

  /** What a button's click handler calls. */
  datatype Command = PauseScan(scanId: string) | ResumeScan(scanId: string)

  /** A rendered button: its caption and its click handler, if it has one. */
  datatype ActionButton = ActionButton(caption: string, onClick: Option<Command>)

  /** The three conditional groups, in order: Pause when running, Resume when
      paused, Restart and View Report (with no handler) when completed. */
  function OfferedActions(scan: Scan): (r: seq<ActionButton>)
    ensures |r| <= 2
    ensures forall i :: 0 <= i < |r| && r[i].onClick.Some? ==> r[i].onClick.value.scanId == scan.id
  {
    (if scan.status == Running then [ActionButton("Pause", Some(PauseScan(scan.id)))] else [])
    + (if scan.status == Paused then [ActionButton("Resume", Some(ResumeScan(scan.id)))] else [])
    + (if scan.status == Completed
       then [ActionButton("Restart", None), ActionButton("View Report", None)]
       else [])
  }

  /** Status by status, the buttons offered. */
  lemma ActionsByStatus(scan: Scan)
    ensures scan.status == Running ==> OfferedActions(scan) == [ActionButton("Pause", Some(PauseScan(scan.id)))]
    ensures scan.status == Paused ==> OfferedActions(scan) == [ActionButton("Resume", Some(ResumeScan(scan.id)))]
    ensures scan.status == Completed ==>
      OfferedActions(scan) == [ActionButton("Restart", None), ActionButton("View Report", None)]
    ensures scan.status in {Pending, Failed, Cancelled} ==> OfferedActions(scan) == []
  {
  }

  /** The groups are mutually exclusive, so the buttons never mix: either
      every button has a handler (and there is one), or none has. */
  lemma OneGroupAtMost(scan: Scan)
    ensures (exists i :: 0 <= i < |OfferedActions(scan)| && OfferedActions(scan)[i].onClick.Some?)
        ==> |OfferedActions(scan)| == 1
  {
  }

  /** A handler pauses exactly when the scan runs, and resumes exactly when it is paused. */
  lemma HandlersMatchStatus(scan: Scan)
    ensures (exists i :: 0 <= i < |OfferedActions(scan)| && OfferedActions(scan)[i].onClick == Some(PauseScan(scan.id)))
        <==> scan.status == Running
    ensures (exists i :: 0 <= i < |OfferedActions(scan)| && OfferedActions(scan)[i].onClick == Some(ResumeScan(scan.id)))
        <==> scan.status == Paused
  {
    ActionsByStatus(scan);
    if scan.status == Running {
      assert OfferedActions(scan)[0].onClick == Some(PauseScan(scan.id));
    } else if scan.status == Paused {
      assert OfferedActions(scan)[0].onClick == Some(ResumeScan(scan.id));
    }
  }
}
