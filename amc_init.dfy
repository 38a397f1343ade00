/**
 * The stored transport block size table put to use: an `LteAmc` over it,
 * and the scheduler's own table checked against it.
 */
module AmcInit {
  import opened TbsShape
  import opened TbsTable
  import opened Amc
  import opened SchedTables

  /** `LteAmc::LteAmc`: the object reads the stored table, and its lookup tables are filled. */
  method CreateLteAmc() returns (amc: LteAmc)
    ensures fresh(amc)
    ensures amc.tbs == TransportBlockSizeTable()
    ensures amc.Valid() && amc.Filled()
  {
    TransportBlockSizeTableWellShaped();
    amc := new LteAmc(TransportBlockSizeTable());
  }

  /**
   * Over the AMC table, the scheduler's table as declared falls from 328
   * to 104 between TBS indices 6 and 7 for one resource block, where the
   * intended entry is the AMC table's 88.
   */
  lemma SchedTbSizeAsWrittenFalls()
    ensures WellShaped(TransportBlockSizeTable())
    ensures SchedTbSizeAsWritten(TransportBlockSizeTable(), 6, 1) == 328
    ensures SchedTbSizeAsWritten(TransportBlockSizeTable(), 7, 1) == 104
    ensures SchedTbSize(TransportBlockSizeTable(), 6, 1) == 88
  {
    TransportBlockSizeTableWellShaped();
    assert TransportBlockSizeTable()[0] == TbsRow(1);
  }
}
