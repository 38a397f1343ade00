# Proportional-fair LTE MAC scheduler, modelled in Dafny

This project models the per-TTI MAC scheduler of an LTE eNodeB, `pw_PfFfMacScheduler`
(`pw-ff-mac-scheduler.cc`), the adaptive modulation and coding tables it consults
(`LteAmc`, `lte-amc.cc`) and the uplink helper macros (`up-link-config.h`), and proves
properties of that model.

The link-adaptation tables come from 3GPP TS 36.213:
- the transport-block-size table (Table 7.1.7.2.1-1);
- the PDSCH and PUSCH MCS to TBS-index tables (Tables 7.1.7.1-1 and 8.6.1-1);
- the CQI and MCS spectral-efficiency tables, kept as integers in hundredths.

They are modelled with their lookups and the loops that fill the derived tables at start-up.

The scheduler itself is modelled piece by piece:
- cell and UE configuration (RBG and sub-band sizes, the priority tables, the efficiency table);
- the RLC buffer reports and `UpdateDlRlcBufferInfo` / `UpdateUlRlcBufferInfo`;
- downlink HARQ bookkeeping and the HARQ feedback pass;
- the proportional-fair RBG pass and the DCI stage;
- the RACH grant search;
- the uplink HARQ pass;
- the uplink PFS queues, fairness and priority;
- sub-band sharing and resource-block allocation;
- uplink power control and outer-loop link adaptation;
- CQI ageing.

Parts the scheduler changes in place are classes, with `modifies` clauses and specifications:
- HARQ state, power control, PFS queues, RLC reports and CQI maps;
- the loops that fill the AMC tables;
- the loops of the downlink pass, the sub-band share and the PFS insertions.

Each of them is proved against a function of its inputs. The properties are then proved about that function.

Integer widths that matter are written out explicitly: the `uint8_t`, `uint16_t` and `uint32_t` wrap-around.
Where the code does something other than what it evidently intends, the model keeps both halves. The operations composed into the larger passes follow the code as written, except for three compositions that use the intended half. Each has its own line under "## Left out":
- PfsSelect.RbStep and PfsUplink.UplinkPfs.UlRbAlloc grant through the intended PfsSelect.Nprb;
- PfsUplink.GrantEntry and PfsUplink.UplinkPfs.SchedUeForDat use the exact Pfs.PrbRequest, not the 32-bit Pfs.PrbRequestAsWritten;
- Power.ItbsForSinr, and the SINR adaptation built on it, reads the intended `UlSinrToItbsTbl`.

The evidently intended half carries the intended property, and both halves are listed under "## Findings".

The scheduler's header `pw-ff-mac-scheduler.h` is not part of this model. The constants it defines become parameters, or constant fields of the classes:
- `HARQ_DL_TIMEOUT`, `HARQ_PERIOD` and `MAX_LCG_PER_UE`;
- `PFS_FAIRNESS_FACTOR_LVLS` and the queue counts;
- `UL_DMRS` and `NO_SINR`.

`MAX_ITBS` is the module constant `SchedConfig.MAX_ITBS` (26).

The HARQ process count is 8, as the vectors are resized to 8 when a UE is configured.

## Model

| member | source | states |
|---|---|---|
| Amc.SpectralEfficiencyForCqiIncreasing | ns-allinone-3.35/ns-3.35/src/lte/model.sav/lte-amc.cc:48-53 | the CQI efficiency table strictly increases from CQI 0 to CQI 15 |
| Amc.SpectralEfficiencyForMcsIncreasing | ns-allinone-3.35/ns-3.35/src/lte/model.sav/lte-amc.cc:83-88 | the efficiencies of the valid MCS values 0-28 strictly increase |
| Amc.McsToItbsNonDecreasing | ns-allinone-3.35/ns-3.35/src/lte/model.sav/lte-amc.cc:95-108 | both MCS to TBS index tables (PDSCH and PUSCH) never decrease |
| Amc.CqiScan | ns-allinone-3.35/ns-3.35/src/lte/model.sav/lte-amc.cc:336-339 | the scan never goes back below the CQI it starts from |
| Amc.GetCqiFromSpectralEfficiency | ns-allinone-3.35/ns-3.35/src/lte/model.sav/lte-amc.cc:331-342 | the while loop, for a non-negative efficiency as the assertion demands, returns the CQI of the scan |
| Amc.CqiScanFacts | ns-allinone-3.35/ns-3.35/src/lte/model.sav/lte-amc.cc:336-339 | where the scan stops, the next CQI's efficiency is at least s, and the stopping CQI's own is below s unless it is CQI 0 |
| Amc.CqiFromSpectralEfficiencyCorrect | ns-allinone-3.35/ns-3.35/src/lte/model.sav/lte-amc.cc:331-342 | the CQI returned is the highest one whose efficiency is below s: its successor is at least s; it is below s unless it is 0 |
| Amc.CqiScanMonotone | ns-allinone-3.35/ns-3.35/src/lte/model.sav/lte-amc.cc:336-339 | a larger efficiency makes the scan stop no earlier |
| Amc.CqiFromSpectralEfficiencyMonotone | ns-allinone-3.35/ns-3.35/src/lte/model.sav/lte-amc.cc:331-342 | a higher spectral efficiency never yields a lower CQI |
| Amc.McsScan | ns-allinone-3.35/ns-3.35/src/lte/model.sav/lte-amc.cc:352-355 | the scan never goes back below the MCS it starts from |
| Amc.GetMcsFromCqi | ns-allinone-3.35/ns-3.35/src/lte/model.sav/lte-amc.cc:346-358 | the while loop, for a CQI in 0..15 as the assertion demands, returns the MCS of the scan |
| Amc.McsScanFacts | ns-allinone-3.35/ns-3.35/src/lte/model.sav/lte-amc.cc:352-355 | where the scan stops, that MCS's efficiency is at most x (unless it is 0) and the next MCS's exceeds x (unless it is 28) |
| Amc.McsFromCqiCorrect | ns-allinone-3.35/ns-3.35/src/lte/model.sav/lte-amc.cc:346-358 | the MCS picked never promises more efficiency than the CQI reports, and the next MCS would |
| Amc.SpectralEfficiencyForMcsRange | ns-allinone-3.35/ns-3.35/src/lte/model.sav/lte-amc.cc:83-88 | every valid MCS efficiency lies between CQI 1's (0.15) and CQI 15's (5.55) |
| Amc.McsFromCqiEnds | ns-allinone-3.35/ns-3.35/src/lte/model.sav/lte-amc.cc:346-358 | CQI 0 maps to MCS 0 and CQI 15 to MCS 28 |
| Amc.McsScanMonotone | ns-allinone-3.35/ns-3.35/src/lte/model.sav/lte-amc.cc:352-355 | a larger efficiency makes the scan stop no earlier |
| Amc.McsFromCqiMonotone | ns-allinone-3.35/ns-3.35/src/lte/model.sav/lte-amc.cc:346-358 | a higher CQI never yields a lower MCS |
| Amc.GetDlTbSizeFromMcs | ns-allinone-3.35/ns-3.35/src/lte/model.sav/lte-amc.cc:361-370 | for an MCS below 29 and 1..110 resource blocks, the size looked up lies between 16 bits per resource block and the table's largest entry |
| Amc.GetUlTbSizeFromItbs | ns-allinone-3.35/ns-3.35/src/lte/model.sav/lte-amc.cc:372-379 | for a TBS index below 27 and 1..110 resource blocks, the size lies between 16 bits per resource block and the table's largest entry |
| Amc.GetUlTbSizeFromMcs | ns-allinone-3.35/ns-3.35/src/lte/model.sav/lte-amc.cc:383-392 | the uplink size of an MCS is the size of its PUSCH TBS index, with the same bounds |
| Amc.TbSizeMonotone | ns-allinone-3.35/ns-3.35/src/lte/model.sav/lte-amc.cc:361-392 | a higher MCS or more resource blocks never gives a smaller transport block, downlink and uplink |
| Amc.GetSpectralEfficiencyFromCqi | ns-allinone-3.35/ns-3.35/src/lte/model.sav/lte-amc.cc:396-402 | the efficiency is in 0..5.55 and positive for every CQI but 0 |
| Amc.GetItbsFromMcsUl | ns-allinone-3.35/ns-3.35/src/lte/model.sav/lte-amc.cc:733-735 | MCS 0..10 keep their number as TBS index; higher MCS values lose one or two |
| Amc.FirstFittingMcs | ns-allinone-3.35/ns-3.35/src/lte/model.sav/lte-amc.cc:313-326 | the inner loop finds an MCS exactly when some MCS up to maxMcs fits tbs on nprb blocks, and then it is the smallest one, with its block size |
| Amc.GetUlMcsNprbInfoFromTbs | ns-allinone-3.35/ns-3.35/src/lte/model.sav/lte-amc.cc:300-328 | one entry per resource-block count up to maxNprb that some MCS can fill with tbs bits, with the smallest such MCS, in increasing block order, and no other entries |
| Amc.GetMcsFromItbs | ns-allinone-3.35/ns-3.35/src/lte/model.sav/lte-amc.cc:561-580 | the result fits the uint8_t it passes through |
| Amc.McsFromItbsRoundTrip | ns-allinone-3.35/ns-3.35/src/lte/model.sav/lte-amc.cc:561-580 | for every TBS index the MCS chosen is within two of it, is a valid PUSCH MCS and maps back to the same TBS index |
| Amc.GetTrgCqiDelta | ns-allinone-3.35/ns-3.35/src/lte/model.sav/lte-amc.cc:738-746 | the offset is 5 exactly when the headroom is at most 11, and 0 exactly when it is above |
| Amc.UlEfficiencyCompare | ns-allinone-3.35/ns-3.35/src/lte/model.sav/lte-amc.cc:705 | the real comparison effTbl[i] <= EFF[j] holds exactly when the integer column sum is at most 110 * EFF[j] |
| Amc.ColumnSumBounds | ns-allinone-3.35/ns-3.35/src/lte/model.sav/lte-amc.cc:722-727 | the sum over n rows is at least 113 per row and grows with the TBS index |
| Amc.UlEfficiencyMonotone | ns-allinone-3.35/ns-3.35/src/lte/model.sav/lte-amc.cc:717-730 | the uplink efficiency grows with the TBS index and is never below 113 bits per 1024 resource elements |
| Amc.ColumnSums | ns-allinone-3.35/ns-3.35/src/lte/model.sav/lte-amc.cc:717-730 | one column sum per TBS index |
| Amc.ZeroFill | ns-allinone-3.35/ns-3.35/src/lte/model.sav/lte-amc.cc:709-712 | entries 1..j become 0; entry 0 and entries above j keep their values |
| Amc.CqiToItbsFrom | ns-allinone-3.35/ns-3.35/src/lte/model.sav/lte-amc.cc:702-708 | the pairing loop keeps 16 entries |
| Amc.CqiToItbsFromShape | ns-allinone-3.35/ns-3.35/src/lte/model.sav/lte-amc.cc:702-712 | continued from any state where the CQIs above j have increasing indices above i, the table ends with indices in range for CQIs 1..15, non-decreasing, and entry 0 unchanged |
| Amc.CqiToItbsShape | ns-allinone-3.35/ns-3.35/src/lte/model.sav/lte-amc.cc:694-714 | whatever the efficiencies, CQIs 1..15 get TBS indices in 0..26, non-decreasing in the CQI, and CQI 0's entry is never written |
| Amc.SinrToMcsBoundIncreasing | ns-allinone-3.35/ns-3.35/src/lte/model.sav/lte-amc.cc:610-666 | the block bounds of the counter loops strictly increase and lie in 121..254 |
| Amc.SinrBlock | ns-allinone-3.35/ns-3.35/src/lte/model.sav/lte-amc.cc:610-666 | the block found is at or after the one the search starts from |
| Amc.SinrBlockMonotone | ns-allinone-3.35/ns-3.35/src/lte/model.sav/lte-amc.cc:610-666 | a higher UL CQI lands in the same block or a later one |
| Amc.SinrBlockTop | ns-allinone-3.35/ns-3.35/src/lte/model.sav/lte-amc.cc:662-666 | every UL CQI above 186 lands in the MCS 28 block |
| Amc.SinrToMcsShape | ns-allinone-3.35/ns-3.35/src/lte/model.sav/lte-amc.cc:607-670 | the table never decreases over the UL CQI range, is 0 up to 121 and 28 from 187 on |
| Amc.SinrBlockFrom | ns-allinone-3.35/ns-3.35/src/lte/model.sav/lte-amc.cc:610-666 | a UL CQI above block k-1's bound and at most block k's maps to MCS k |
| Amc.McsToCqiShape | ns-allinone-3.35/ns-3.35/src/lte/model.sav/lte-amc.cc:673-691 | the table written has an entry per MCS, never decreases and stays within 0..14 |
| Amc.LteAmc.constructor | ns-allinone-3.35/ns-3.35/src/lte/model.sav/lte-amc.cc:260-266 | the object reads the given size table and its three tables hold what the builders write |
| Amc.LteAmc.FillSinrToMcs | ns-allinone-3.35/ns-3.35/src/lte/model.sav/lte-amc.cc:607-670 | every UL CQI gets the MCS of its block, and the chained builders fill McsToCqi and the CQI to TBS index table |
| Amc.LteAmc.FillSinrBlock | ns-allinone-3.35/ns-3.35/src/lte/model.sav/lte-amc.cc:610-666 | one counter loop maps every UL CQI up to its block's bound to that block's MCS, keeping what earlier loops wrote |
| Amc.LteAmc.FillMcsToCqi | ns-allinone-3.35/ns-3.35/src/lte/model.sav/lte-amc.cc:673-691 | McsToCqi becomes the written table and the chained builder fills the CQI to TBS index table |
| Amc.LteAmc.FillCqiToItbsTbl | ns-allinone-3.35/ns-3.35/src/lte/model.sav/lte-amc.cc:694-714 | the table becomes the pairing of CQIs with TBS indices from the top down, computed from the column sums, with entry 0 left as it was |
| Amc.LteAmc.CompUlEff | ns-allinone-3.35/ns-3.35/src/lte/model.sav/lte-amc.cc:717-730 | each of the 27 entries becomes the mean over 110 allocation sizes of the truncated quotients |
| Amc.LteAmc.GetItbsFromCqi | ns-allinone-3.35/ns-3.35/src/lte/model.sav/lte-amc.cc:597-599 | the TBS index read is in 0..26 and never above the next CQI's |
| Amc.LteAmc.GetCqiFromMcs | ns-allinone-3.35/ns-3.35/src/lte/model.sav/lte-amc.cc:602-604 | the CQI read is in 0..14 and never above the next MCS's |
| UlBsr.Overhead | ns-allinone-3.35/ns-3.35/src/lte/model.sav/pw-ff-mac-scheduler.cc:4005 | size - 2 in uint16_t: size - 2 from 2 on, and 65534 + size for a size of 0 or 1 |
| UlBsr.Charged | ns-allinone-3.35/ns-3.35/src/lte/model.sav/pw-ff-mac-scheduler.cc:4010-4017 | the report after a charge is never negative, never above the old report, is b - s when b >= s, and is 0 exactly when b <= s |
| UlBsr.ChargedAllIsTotal | ns-allinone-3.35/ns-3.35/src/lte/model.sav/pw-ff-mac-scheduler.cc:4001-4022 | charging several grants one after another leaves the report less their total, floored at 0 |
| UlBsr.TinyGrantClears | ns-allinone-3.35/ns-3.35/src/lte/model.sav/pw-ff-mac-scheduler.cc:4005 | a grant of 0 or 1 byte wraps and clears any report up to 65534 bytes |
| UlBsr.UlBsrReports.constructor | ns-allinone-3.35/ns-3.35/src/lte/model.sav/pw-ff-mac-scheduler.cc:191-215 | the store starts empty |
| UlBsr.UlBsrReports.UpdateUlRlcBufferInfo | ns-allinone-3.35/ns-3.35/src/lte/model.sav/pw-ff-mac-scheduler.cc:4001-4022 | a known UE's report is charged the wrapped size, an unknown RNTI changes nothing, the RNTIs stay the same, and every other UE keeps its report |
| UlBsr.UlBsrReports.ReleaseUe | ns-allinone-3.35/ns-3.35/src/lte/model.sav/pw-ff-mac-scheduler.cc:610 | the UE's report is erased and nothing else changes |
| CqiAgeing.RefreshStore | ns-allinone-3.35/ns-3.35/src/lte/model.sav/pw-ff-mac-scheduler.cc:3866-3945 | one pass over a store: every timer at 0 is erased with its report, every other timer counts down by one, and the store and timers keep the same RNTIs |
| CqiAgeing.AgedTimesAt | ns-allinone-3.35/ns-3.35/src/lte/model.sav/pw-ff-mac-scheduler.cc:3866-3945 | after k refreshes an RNTI still has a timer exactly when its timer was at least k, and it is then k lower, whatever the other RNTIs do |
| CqiAgeing.ReportLifetime | ns-allinone-3.35/ns-3.35/src/lte/model.sav/pw-ff-mac-scheduler.cc:3866-3945 | a report whose timer was just set to the threshold survives the next threshold refreshes, counting down, and is dropped by the next one |
| CqiAgeing.LastFor | ns-allinone-3.35/ns-3.35/src/lte/model.sav/pw-ff-mac-scheduler.cc:1796-1845 | the position found is the last report for the RNTI, or -1 when there is none |
| CqiAgeing.UpsertsAt | ns-allinone-3.35/ns-3.35/src/lte/model.sav/pw-ff-mac-scheduler.cc:1796-1845 | after the reports an RNTI that had one holds its last report's value with its timer at the threshold; every other RNTI keeps its entries or the lack of them |
| CqiAgeing.UpsertsOk | ns-allinone-3.35/ns-3.35/src/lte/model.sav/pw-ff-mac-scheduler.cc:1796-1845 | the reports keep store and timers on the same in-range RNTIs with non-negative timers |
| CqiAgeing.UpsertsNext | ns-allinone-3.35/ns-3.35/src/lte/model.sav/pw-ff-mac-scheduler.cc:1796-1845 | one more report overwrites its RNTI's value and sets its timer to the threshold |
| CqiAgeing.NewUlCqi | ns-allinone-3.35/ns-3.35/src/lte/model.sav/pw-ff-mac-scheduler.cc:3664-3678 | a new uplink entry has one value per resource block: the SINR at the block reported and NO_SINR elsewhere |
| CqiAgeing.PuschStored | ns-allinone-3.35/ns-3.35/src/lte/model.sav/pw-ff-mac-scheduler.cc:3658-3699 | every uplink entry keeps one value per resource block |
| CqiAgeing.PuschStoredAt | ns-allinone-3.35/ns-3.35/src/lte/model.sav/pw-ff-mac-scheduler.cc:3658-3699 | a UE allocated one of the blocks gets its timer set to the threshold, the SINR of each of its blocks, and elsewhere its old values or NO_SINR if it had no entry |
| CqiAgeing.PuschStoredOthers | ns-allinone-3.35/ns-3.35/src/lte/model.sav/pw-ff-mac-scheduler.cc:3658-3699 | a UE allocated none of the blocks keeps its entry and timer, or the lack of them |
| CqiAgeing.CqiReports.constructor | ns-allinone-3.35/ns-3.35/src/lte/model.sav/pw-ff-mac-scheduler.cc:238-241 | all six stores start empty, with the threshold, bandwidth and NO_SINR given |
| CqiAgeing.CqiReports.DlCqiInfo | ns-allinone-3.35/ns-3.35/src/lte/model.sav/pw-ff-mac-scheduler.cc:1791-1848 | the wideband and sub-band stores become the upserts of the P10 and A30 reports of the list, in order; reports of another type change nothing; the uplink store is untouched |
| CqiAgeing.CqiReports.RefreshDlCqiMaps | ns-allinone-3.35/ns-3.35/src/lte/model.sav/pw-ff-mac-scheduler.cc:3866-3916 | both downlink stores age by one TTI and the uplink store is untouched |
| CqiAgeing.CqiReports.RefreshUlCqiMaps | ns-allinone-3.35/ns-3.35/src/lte/model.sav/pw-ff-mac-scheduler.cc:3919-3945 | the uplink store ages by one TTI and the downlink stores are untouched |
| CqiAgeing.CqiReports.UlSrsCqi | ns-allinone-3.35/ns-3.35/src/lte/model.sav/pw-ff-mac-scheduler.cc:3742-3805 | the UE's entry becomes the SINR of every uplink block, created or replaced, and its timer the threshold; nothing else changes |
| CqiAgeing.CqiReports.UlPuschCqi | ns-allinone-3.35/ns-3.35/src/lte/model.sav/pw-ff-mac-scheduler.cc:3648-3699 | the uplink store and timers become the PUSCH walk over the allocation map; the downlink stores are untouched |
| DlPf.SbCqi | ns-allinone-3.35/ns-3.35/src/lte/model.sav/pw-ff-mac-scheduler.cc:1355-1366 | the sub-band CQIs used for an RBG are at least one CQI, each in 0..15: the report's entry, or CQI 1 per layer without a report |
| DlPf.LayerMcs | ns-allinone-3.35/ns-3.35/src/lte/model.sav/pw-ff-mac-scheduler.cc:1381-1391 | a layer's MCS is a valid MCS: from its CQI, or 0 when the entry has none for the layer |
| DlPf.RbgBytes | ns-allinone-3.35/ns-3.35/src/lte/model.sav/pw-ff-mac-scheduler.cc:1381-1393 | the bytes the layers carry on one RBG are at least two per resource block and layer |
| DlPf.Rcqi | ns-allinone-3.35/ns-3.35/src/lte/model.sav/pw-ff-mac-scheduler.cc:1379-1395 | the metric, achievable rate over average throughput, is positive |
| DlPf.Metrics | ns-allinone-3.35/ns-3.35/src/lte/model.sav/pw-ff-mac-scheduler.cc:1327-1420 | the candidates of an RBG are exactly the flows the frequency reuse allows, not served by a retransmission, with an idle HARQ process, a first or second layer in range and an active channel, each with its metric |
| DlPf.BestOfHeld | ns-allinone-3.35/ns-3.35/src/lte/model.sav/pw-ff-mac-scheduler.cc:1324-1420 | the flow held is a candidate already visited and the metric held is its metric; nothing held means metric 0 |
| DlPf.BestOfMax | ns-allinone-3.35/ns-3.35/src/lte/model.sav/pw-ff-mac-scheduler.cc:1413-1417 | no visited candidate has a metric above the one held |
| DlPf.BestOfFirst | ns-allinone-3.35/ns-3.35/src/lte/model.sav/pw-ff-mac-scheduler.cc:1413-1417 | every candidate before the one held has a strictly smaller metric, so a tie goes to the lowest RNTI |
| DlPf.BestOfNone | ns-allinone-3.35/ns-3.35/src/lte/model.sav/pw-ff-mac-scheduler.cc:1422-1426 | with positive metrics nothing is held exactly when no visited RNTI is a candidate |
| DlPf.WinnerSpec | ns-allinone-3.35/ns-3.35/src/lte/model.sav/pw-ff-mac-scheduler.cc:1322-1457 | an RBG goes to a candidate of greatest metric, the lowest RNTI on a tie, and to nobody exactly when nobody competes |
| DlPf.Assign | ns-allinone-3.35/ns-3.35/src/lte/model.sav/pw-ff-mac-scheduler.cc:1319-1459 | the pass leaves the RBG map as long as it was and does not touch the RBGs it has not reached |
| DlPf.AssignSpec | ns-allinone-3.35/ns-3.35/src/lte/model.sav/pw-ff-mac-scheduler.cc:1319-1459 | after the pass an RBG is used exactly when it was used or has a winner; listed RBGs were free and won by the list's RNTI; each free RBG with a winner is listed; every list is non-empty and increasing |
| DlPf.AssignMarks | ns-allinone-3.35/ns-3.35/src/lte/model.sav/pw-ff-mac-scheduler.cc:1319-1459 | after the pass an RBG is used exactly when it was already used or some UE won it |
| DlPf.AssignSound | ns-allinone-3.35/ns-3.35/src/lte/model.sav/pw-ff-mac-scheduler.cc:1319-1459 | every RBG in a list was free, lies below the RBGs reached and was won by the RNTI of that list |
| DlPf.AssignComplete | ns-allinone-3.35/ns-3.35/src/lte/model.sav/pw-ff-mac-scheduler.cc:1319-1459 | every free RBG with a winner is in its winner's list |
| DlPf.AssignShape | ns-allinone-3.35/ns-3.35/src/lte/model.sav/pw-ff-mac-scheduler.cc:1319-1459 | every list is non-empty, increasing and holds only RBGs already reached |
| DlPf.Winners | ns-allinone-3.35/ns-3.35/src/lte/model.sav/pw-ff-mac-scheduler.cc:1319-1459 | one winner per RBG, the one of that RBG's search |
| DlPf.PfAllocationSpec | ns-allinone-3.35/ns-3.35/src/lte/model.sav/pw-ff-mac-scheduler.cc:1319-1459 | an RBG already used stays used and unlisted; a free RBG is used afterwards exactly when some UE competes, and is then in its winner's list only; lists are increasing and within the RBGs |
| DlPf.LayerMin | ns-allinone-3.35/ns-3.35/src/lte/model.sav/pw-ff-mac-scheduler.cc:1513-1541 | worstCqi keeps one entry per layer |
| DlPf.Fallback | ns-allinone-3.35/ns-3.35/src/lte/model.sav/pw-ff-mac-scheduler.cc:1536-1548 | worstCqi keeps one entry per layer |
| DlPf.WorstUpTo | ns-allinone-3.35/ns-3.35/src/lte/model.sav/pw-ff-mac-scheduler.cc:1510-1541 | worstCqi keeps one entry per layer |
| DlPf.WorstCqi | ns-allinone-3.35/ns-3.35/src/lte/model.sav/pw-ff-mac-scheduler.cc:1510-1549 | worstCqi keeps one entry per layer |
| DlPf.WorstUpToSpec | ns-allinone-3.35/ns-3.35/src/lte/model.sav/pw-ff-mac-scheduler.cc:1510-1541 | a layer's worst CQI is in 0..15, 15 on an unused layer, at most 1 once an RBG without its CQI was met, and otherwise the minimum of the RBGs' CQIs (15 for none) |
| DlPf.WorstCqiSpec | ns-allinone-3.35/ns-3.35/src/lte/model.sav/pw-ff-mac-scheduler.cc:1510-1549 | the CQI a layer of the DCI is coded for: 1 without a report; at most 1 if an allocated RBG has no CQI for it; otherwise the minimum over the allocated RBGs |
| DlPf.Mcss | ns-allinone-3.35/ns-3.35/src/lte/model.sav/pw-ff-mac-scheduler.cc:1555-1557 | one valid MCS per layer, the one GetMcsFromCqi gives for its worst CQI |
| DlPf.LayerTbs | ns-allinone-3.35/ns-3.35/src/lte/model.sav/pw-ff-mac-scheduler.cc:1558-1559 | one block per layer in bytes, the table's size over 8, at least two bytes per resource block |
| DlPf.LcPdus | ns-allinone-3.35/ns-3.35/src/lte/model.sav/pw-ff-mac-scheduler.cc:1612-1619 | one PDU per layer, for the channel, of the layer's block divided among the active channels |
| DlPf.SharesFit | ns-allinone-3.35/ns-3.35/src/lte/model.sav/pw-ff-mac-scheduler.cc:1617 | a channel's share of a block is never larger than the block |
| DlPf.DrainPdus | ns-allinone-3.35/ns-3.35/src/lte/model.sav/pw-ff-mac-scheduler.cc:1620 | the report drained by the channel's PDUs, layer after layer, stays well formed |
| DlPf.KeepPdus | ns-allinone-3.35/ns-3.35/src/lte/model.sav/pw-ff-mac-scheduler.cc:1621-1630 | keeping the PDUs for HARQ keeps the record well formed |
| DlPf.KeepPdusEffect | ns-allinone-3.35/ns-3.35/src/lte/model.sav/pw-ff-mac-scheduler.cc:1621-1630 | PDU j joins the list of layer j on the process, and nothing else of the record changes |
| DlPf.DrainedBelow | ns-allinone-3.35/ns-3.35/src/lte/model.sav/pw-ff-mac-scheduler.cc:1605-1638 | the walk over the channels keeps the reports well formed, on the same channels |
| DlPf.PduListsCount | ns-allinone-3.35/ns-3.35/src/lte/model.sav/pw-ff-mac-scheduler.cc:1605-1638 | the walk makes one PDU list per active channel of the RNTI |
| DlPf.PduListsShape | ns-allinone-3.35/ns-3.35/src/lte/model.sav/pw-ff-mac-scheduler.cc:1612-1632 | each PDU list has one PDU per layer carrying that channel's equal share of the layer's block |
| DlPf.KeepAll | ns-allinone-3.35/ns-3.35/src/lte/model.sav/pw-ff-mac-scheduler.cc:1621-1630 | keeping every list for HARQ keeps the record well formed |
| DlPf.KeepAllEffect | ns-allinone-3.35/ns-3.35/src/lte/model.sav/pw-ff-mac-scheduler.cc:1621-1630 | the process's buffer of layer j gains layer j of every list, in order; nothing else changes |
| DlPf.ActiveBelowAll | ns-allinone-3.35/ns-3.35/src/lte/model.sav/pw-ff-mac-scheduler.cc:690-710 | every active channel of a UE is met by the walk over channel ids |
| DlPf.ColumnBytes | ns-allinone-3.35/ns-3.35/src/lte/model.sav/pw-ff-mac-scheduler.cc:1612-1632 | layer j of n lists each carrying q bytes holds n * q bytes |
| DlPf.TakeProcess | ns-allinone-3.35/ns-3.35/src/lte/model.sav/pw-ff-mac-scheduler.cc:745-786 | with HARQ on the process taken is idle, otherwise it is 0 and nothing changes |
| DlPf.DciMcs | ns-allinone-3.35/ns-3.35/src/lte/model.sav/pw-ff-mac-scheduler.cc:1550-1557 | one MCS per layer, from the layer's worst CQI |
| DlPf.DciTbs | ns-allinone-3.35/ns-3.35/src/lte/model.sav/pw-ff-mac-scheduler.cc:1555-1561 | one block per layer over all the UE's resource blocks (at most 110), from the table, with non-negative total |
| DlPf.JobOf | ns-allinone-3.35/ns-3.35/src/lte/model.sav/pw-ff-mac-scheduler.cc:1493-1499 | the channels share the blocks among the active channels of the RNTI, or 65535 ways when none is active |
| DlPf.ListsOf | ns-allinone-3.35/ns-3.35/src/lte/model.sav/pw-ff-mac-scheduler.cc:1603-1638 | each PDU list of the RNTI has one PDU per layer |
| DlPf.Retain | ns-allinone-3.35/ns-3.35/src/lte/model.sav/pw-ff-mac-scheduler.cc:1688-1704 | keeping the transmission for HARQ keeps the record well formed |
| DlPf.NewDataFor | ns-allinone-3.35/ns-3.35/src/lte/model.sav/pw-ff-mac-scheduler.cc:1482-1725 | the new transmission is addressed to the RNTI, and its blocks fit the table |
| DlPf.UeAfter | ns-allinone-3.35/ns-3.35/src/lte/model.sav/pw-ff-mac-scheduler.cc:1491-1704 | the UE's HARQ record after the stage stays well formed |
| DlPf.NewDataForDci | ns-allinone-3.35/ns-3.35/src/lte/model.sav/pw-ff-mac-scheduler.cc:1487-1684 | the DCI is for the RNTI; with HARQ on its process is the first idle one after the current, otherwise 0; new-data indicator 1 and redundancy version 0 per layer; the UE's pending TPC command |
| DlPf.NewDataForMcs | ns-allinone-3.35/ns-3.35/src/lte/model.sav/pw-ff-mac-scheduler.cc:1550-1561 | one MCS per layer from the layer's worst CQI, and one block per layer over all the UE's resource blocks |
| DlPf.NewDataForBitmap | ns-allinone-3.35/ns-3.35/src/lte/model.sav/pw-ff-mac-scheduler.cc:1581-1589 | the bitmap has exactly the bits of the UE's RBGs |
| DlPf.NewDataForPdus | ns-allinone-3.35/ns-3.35/src/lte/model.sav/pw-ff-mac-scheduler.cc:1603-1638 | one list per active channel, one PDU per layer with an equal share of the layer's block, and a layer's PDUs never exceed its block |
| DlPf.UeAfterSpec | ns-allinone-3.35/ns-3.35/src/lte/model.sav/pw-ff-mac-scheduler.cc:1491-1704 | with HARQ on the process is taken, keeps the DCI with its timer at 0 and its buffers gain the PDUs of each layer; with HARQ off the record is kept |
| DlPf.FlowsBelow | ns-allinone-3.35/ns-3.35/src/lte/model.sav/pw-ff-mac-scheduler.cc:1709-1722 | the flows keep their RNTIs and averages during the stage, and bytes sent are never negative |
| DlPf.UesBelow | ns-allinone-3.35/ns-3.35/src/lte/model.sav/pw-ff-mac-scheduler.cc:1482-1725 | the HARQ records keep their RNTIs and stay well formed |
| DlPf.ReportsBelow | ns-allinone-3.35/ns-3.35/src/lte/model.sav/pw-ff-mac-scheduler.cc:1603-1638 | the RLC reports keep their channels and stay well formed |
| DlPf.Overlay | ns-allinone-3.35/ns-3.35/src/lte/model.sav/pw-ff-mac-scheduler.cc:1482-1725 | putting the entries of the RNTIs done over the reports keeps the channels |
| DlPf.AllDrained | ns-allinone-3.35/ns-3.35/src/lte/model.sav/pw-ff-mac-scheduler.cc:1605-1638 | the channels drained are exactly the active channels of allocated RNTIs, each left well formed |
| DlPf.Drained | ns-allinone-3.35/ns-3.35/src/lte/model.sav/pw-ff-mac-scheduler.cc:1612-1620 | a drained channel's report stays well formed |
| DlPf.UeUlBelow | ns-allinone-3.35/ns-3.35/src/lte/model.sav/pw-ff-mac-scheduler.cc:1645-1684 | the power records keep their RNTIs |
| DlPf.StateBelow | ns-allinone-3.35/ns-3.35/src/lte/model.sav/pw-ff-mac-scheduler.cc:1482-1725 | the state during the stage stays one the pass can run on |
| DlPf.KeysBelowSpec | ns-allinone-3.35/ns-3.35/src/lte/model.sav/pw-ff-mac-scheduler.cc:1482-1483 | the walk meets each allocated RNTI below n once, in increasing order |
| DlPf.NewDataBelow | ns-allinone-3.35/ns-3.35/src/lte/model.sav/pw-ff-mac-scheduler.cc:1482-1725 | one transmission per allocated RNTI below n, each with blocks that fit the table |
| DlPf.NewDataBelowSpec | ns-allinone-3.35/ns-3.35/src/lte/model.sav/pw-ff-mac-scheduler.cc:1482-1725 | each transmission is that of an allocated RNTI for its RBGs, the RNTIs increase, and every allocated RNTI has one |
| DlPf.ResetTti | ns-allinone-3.35/ns-3.35/src/lte/model.sav/pw-ff-mac-scheduler.cc:1461-1466 | every flow keeps its entry with the bytes of the TTI set to 0 |
| DlPf.AveragedSpec | ns-allinone-3.35/ns-3.35/src/lte/model.sav/pw-ff-mac-scheduler.cc:1742-1749 | the average stays positive, moves a 99th of the way to the TTI's throughput and lies between the two; the bytes join the total and the TTI count resets |
| DlPf.UpdateStats | ns-allinone-3.35/ns-3.35/src/lte/model.sav/pw-ff-mac-scheduler.cc:1742-1763 | every flow is averaged and no flow is added or dropped |
| DlPf.UpdateStatsOk | ns-allinone-3.35/ns-3.35/src/lte/model.sav/pw-ff-mac-scheduler.cc:1742-1763 | the statistics update keeps every average positive |
| DlPf.PfAllocsOk | ns-allinone-3.35/ns-3.35/src/lte/model.sav/pw-ff-mac-scheduler.cc:1319-1482 | every RNTI the pass allocates to can be served by the DCI stage after the TTI reset |
| DlPf.NewDataTti | ns-allinone-3.35/ns-3.35/src/lte/model.sav/pw-ff-mac-scheduler.cc:1306-1763 | the new-data part keeps the state one the pass can run on, with an RBG map of the same length |
| DlPf.PfState | ns-allinone-3.35/ns-3.35/src/lte/model.sav/pw-ff-mac-scheduler.cc:1461-1763 | the state after the DCI stage and the statistics update stays one the pass can run on |
| DlPf.PfNewData | ns-allinone-3.35/ns-3.35/src/lte/model.sav/pw-ff-mac-scheduler.cc:1482-1725 | every transmission has blocks that fit the table |
| DlPf.PfNewDataSpec | ns-allinone-3.35/ns-3.35/src/lte/model.sav/pw-ff-mac-scheduler.cc:1461-1725 | the transmissions are those of the RNTIs the pass allocated to, one each, in increasing order, built from the state after the TTI reset |
| DlPf.PfAllocationOf | ns-allinone-3.35/ns-3.35/src/lte/model.sav/pw-ff-mac-scheduler.cc:1429-1442 | the RBGs listed for a UE are exactly the free RBGs it won, and it is listed exactly when it won one |
| DlPf.PfBitmaps | ns-allinone-3.35/ns-3.35/src/lte/model.sav/pw-ff-mac-scheduler.cc:1581-1589 | each transmission's bitmap has exactly the RBGs that were free and that its RNTI won |
| DlPf.PfServed | ns-allinone-3.35/ns-3.35/src/lte/model.sav/pw-ff-mac-scheduler.cc:1482-1725 | an RNTI gets a new transmission exactly when it wins a free RBG |
| DlPf.NewDataForTbs | ns-allinone-3.35/ns-3.35/src/lte/model.sav/pw-ff-mac-scheduler.cc:1555-1561 | the blocks of the DCI are the UE's per-layer blocks, with a non-negative total |
| DlPf.PfFlowsServed | ns-allinone-3.35/ns-3.35/src/lte/model.sav/pw-ff-mac-scheduler.cc:1709-1749 | a flow with a new transmission has the bytes of its blocks join its total and its average |
| DlPf.PfFlowsIdle | ns-allinone-3.35/ns-3.35/src/lte/model.sav/pw-ff-mac-scheduler.cc:1461-1749 | a flow without one is averaged with no bytes sent in the TTI |
| DlPf.PfHarq | ns-allinone-3.35/ns-3.35/src/lte/model.sav/pw-ff-mac-scheduler.cc:1491-1704 | with HARQ on each RNTI served takes the first idle process after its current one, keeping the DCI there with its timer at 0; with HARQ off its record is kept and the process is 0 |
| DlPf.PfPower | ns-allinone-3.35/ns-3.35/src/lte/model.sav/pw-ff-mac-scheduler.cc:1645-1684 | each RNTI served gets its pending TPC in the DCI and has the power update of the DCI applied |
| DlPf.PfUntouched | ns-allinone-3.35/ns-3.35/src/lte/model.sav/pw-ff-mac-scheduler.cc:1482-1725 | an RNTI not served keeps its HARQ, power and RLC records |
| DlPf.PfReports | ns-allinone-3.35/ns-3.35/src/lte/model.sav/pw-ff-mac-scheduler.cc:1603-1638 | every active channel of an RNTI served is drained by one PDU per layer, an equal share of each block among its active channels |
| DlPf.NewDataTtiSpec | ns-allinone-3.35/ns-3.35/src/lte/model.sav/pw-ff-mac-scheduler.cc:1306-1763 | with every RBG taken nothing changes and nothing is sent; otherwise the RBG map has exactly the RBGs taken or competed for, and the state and transmissions are those of the DCI stage |
| DlPfPass.FindWinner | ns-allinone-3.35/ns-3.35/src/lte/model.sav/pw-ff-mac-scheduler.cc:1324-1420 | the walk over the flows returns the winner of the RBG's search |
| DlPfPass.RbgPass | ns-allinone-3.35/ns-3.35/src/lte/model.sav/pw-ff-mac-scheduler.cc:1319-1459 | the loop over the RBGs leaves the RBG map and allocation map of the pass |
| DlPfPass.RbgStep | ns-allinone-3.35/ns-3.35/src/lte/model.sav/pw-ff-mac-scheduler.cc:1318-1459 | one turn of the loop extends the pass by one RBG: a free RBG goes to the winner of its search, if there is one |
| DlPfPass.WorstCqiLoop | ns-allinone-3.35/ns-3.35/src/lte/model.sav/pw-ff-mac-scheduler.cc:1510-1549 | the loop over the UE's RBGs computes the worst CQI per layer of the DCI |
| DlPfPass.DciStage | ns-allinone-3.35/ns-3.35/src/lte/model.sav/pw-ff-mac-scheduler.cc:1482-1725 | the walk over the allocation map in RNTI order leaves the state and the transmissions of the DCI stage |
| DlPfPass.NewDataStep | ns-allinone-3.35/ns-3.35/src/lte/model.sav/pw-ff-mac-scheduler.cc:1306-1763 | the new-data part of the TTI returns the state, transmissions and RBG map of the new-data step |
| DlPfPass.NewDataBelowNext | ns-allinone-3.35/ns-3.35/src/lte/model.sav/pw-ff-mac-scheduler.cc:1482-1725 | past an allocated RNTI the transmissions gain exactly its transmission; past any other RNTI they do not change |
| DlPfPass.StateBelowNext | ns-allinone-3.35/ns-3.35/src/lte/model.sav/pw-ff-mac-scheduler.cc:1482-1725 | past an allocated RNTI the state is the step of that RNTI applied to the state before it |
| DlPfPass.StateBelowSkip | ns-allinone-3.35/ns-3.35/src/lte/model.sav/pw-ff-mac-scheduler.cc:1482-1725 | past an RNTI with nothing allocated the state does not change |
| DlPfPass.StateBelowNone | ns-allinone-3.35/ns-3.35/src/lte/model.sav/pw-ff-mac-scheduler.cc:1482-1725 | before the walk the state is the one after the TTI reset |
| DlRetx.MergeFeedback | ns-allinone-3.35/ns-3.35/src/lte/model.sav/pw-ff-mac-scheduler.cc:1031-1050 | with HARQ on the pass walks the kept feedback followed by the feedback received; with HARQ off it walks nothing |
| DlRetx.RetxFlags | ns-allinone-3.35/ns-3.35/src/lte/model.sav/pw-ff-mac-scheduler.cc:1060-1072 | a layer asks for a retransmission exactly when its status is NACK; layer 1 never does with a single status |
| DlRetx.MaxRv | ns-allinone-3.35/ns-3.35/src/lte/model.sav/pw-ff-mac-scheduler.cc:1086-1094 | the redundancy version is the larger of the first two layers' versions, or layer 0's when there is one |
| DlRetx.RetxLayer | ns-allinone-3.35/ns-3.35/src/lte/model.sav/pw-ff-mac-scheduler.cc:1199-1226 | one layer's update keeps the DCI's layers aligned, adding an entry only for a retransmitted layer the DCI does not carry |
| DlRetx.RetxLayers | ns-allinone-3.35/ns-3.35/src/lte/model.sav/pw-ff-mac-scheduler.cc:1197-1227 | the layer loop keeps the layers aligned and adds entries only up to the number of layers |
| DlRetx.ApplyRetxLayers | ns-allinone-3.35/ns-3.35/src/lte/model.sav/pw-ff-mac-scheduler.cc:1197-1227 | the loop over the layers computes the layer update |
| DlRetx.RetxLayersEffect | ns-allinone-3.35/ns-3.35/src/lte/model.sav/pw-ff-mac-scheduler.cc:1197-1227 | a retransmitted layer the DCI carries keeps its MCS and block size with NDI 0 and its RV plus one; one it does not carry gets zeros; any other layer gets an empty block; bitmap, RNTI, process and TPC are kept |
| DlRetx.RetxLayersRvOk | ns-allinone-3.35/ns-3.35/src/lte/model.sav/pw-ff-mac-scheduler.cc:1096-1116 | a retransmission reached only with RV below 3 leaves every RV at most 3 |
| DlRetx.CountTrueMarkAll | ns-allinone-3.35/ns-3.35/src/lte/model.sav/pw-ff-mac-scheduler.cc:1144-1149 | marking distinct free RBGs raises the count of used RBGs by their number, so rbgAllocatedNum keeps counting the used RBGs |
| DlRetx.CheckFree | ns-allinone-3.35/ns-3.35/src/lte/model.sav/pw-ff-mac-scheduler.cc:1131-1139 | it answers free exactly when none of the original RBGs is used |
| DlRetx.MarkRbgs | ns-allinone-3.35/ns-3.35/src/lte/model.sav/pw-ff-mac-scheduler.cc:1144-1149 | the loop marks exactly the original RBGs |
| DlRetx.FreeAfterFree | ns-allinone-3.35/ns-3.35/src/lte/model.sav/pw-ff-mac-scheduler.cc:1160-1169 | the scan lists only free RBGs inside the cell and never the last original RBG |
| DlRetx.FreeAfterOrdered | ns-allinone-3.35/ns-3.35/src/lte/model.sav/pw-ff-mac-scheduler.cc:1160-1169 | the scan lists RBGs in the order it visits them, each at most once |
| DlRetx.FreeAfterComplete | ns-allinone-3.35/ns-3.35/src/lte/model.sav/pw-ff-mac-scheduler.cc:1160-1169 | every free RBG other than the start that the scan reaches is listed |
| DlRetx.FreeAfterSpec | ns-allinone-3.35/ns-3.35/src/lte/model.sav/pw-ff-mac-scheduler.cc:1156-1169 | the scan lists exactly the free RBGs other than the start within its reach, each once, in scan order |
| DlRetx.FreeAfterPrefix | ns-allinone-3.35/ns-3.35/src/lte/model.sav/pw-ff-mac-scheduler.cc:1160-1169 | a shorter scan lists a prefix of what a longer one lists |
| DlRetx.CircularSearch | ns-allinone-3.35/ns-3.35/src/lte/model.sav/pw-ff-mac-scheduler.cc:1156-1182 | the search succeeds exactly when enough free RBGs exist outside the start, and then takes the first ones in scan order and marks them in the copy |
| DlRetx.RbgsInRange | ns-allinone-3.35/ns-3.35/src/lte/model.sav/pw-ff-mac-scheduler.cc:1119-1130 | the RBGs decoded from a bitmap of the cell are inside the cell, ascending and distinct |
| DlRetx.OldRbgs | ns-allinone-3.35/ns-3.35/src/lte/model.sav/pw-ff-mac-scheduler.cc:1119-1130 | the RBGs the NACKed transmission used are inside the cell, ascending and distinct |
| DlRetx.FeedbackStep | ns-allinone-3.35/ns-3.35/src/lte/model.sav/pw-ff-mac-scheduler.cc:1052-1289 | one feedback handled by the loop body is the step of the pass |
| DlRetx.PlaceRetx | ns-allinone-3.35/ns-3.35/src/lte/model.sav/pw-ff-mac-scheduler.cc:1117-1189 | the RBG choice reuses the original RBGs when all are free, else the first free ones round the cell after the last of them, else keeps the feedback |
| DlRetx.Retransmit | ns-allinone-3.35/ns-3.35/src/lte/model.sav/pw-ff-mac-scheduler.cc:1117-1267 | the retransmission branch is the retransmission step |
| DlRetx.PassInvInit | ns-allinone-3.35/ns-3.35/src/lte/model.sav/pw-ff-mac-scheduler.cc:851-863 | before the pass the records are those it starts from, no RNTI is served and rbgAllocatedNum counts the RBGs the reuse scheme took |
| DlRetx.FreedOk | ns-allinone-3.35/ns-3.35/src/lte/model.sav/pw-ff-mac-scheduler.cc:1096-1116 | freeing a process keeps the record well formed and its DCIs unchanged |
| DlRetx.EmitKeepsInv | ns-allinone-3.35/ns-3.35/src/lte/model.sav/pw-ff-mac-scheduler.cc:1256-1267 | sending a retransmission keeps the records well formed, the count of used RBGs and one data element per served RNTI |
| DlRetx.MovedOk | ns-allinone-3.35/ns-3.35/src/lte/model.sav/pw-ff-mac-scheduler.cc:1156-1182 | the moved RBGs are as many as the original ones, distinct, free and inside the cell |
| DlRetx.StepKeepsInv | ns-allinone-3.35/ns-3.35/src/lte/model.sav/pw-ff-mac-scheduler.cc:1052-1289 | each feedback the records allow is one the source does not abort on, and its step keeps the pass invariant |
| DlRetx.PlaceCount | ns-allinone-3.35/ns-3.35/src/lte/model.sav/pw-ff-mac-scheduler.cc:1140-1189 | a placement marks only free RBGs and adds to rbgAllocatedNum exactly as many as it marks |
| DlRetx.RetxKeepsInv | ns-allinone-3.35/ns-3.35/src/lte/model.sav/pw-ff-mac-scheduler.cc:1117-1267 | a retransmission keeps the pass invariant |
| DlRetx.RunPass | ns-allinone-3.35/ns-3.35/src/lte/model.sav/pw-ff-mac-scheduler.cc:1052-1289 | the loop over the feedback list computes the pass and keeps its invariant |
| DlRetx.ProcessDlHarqFeedback | ns-allinone-3.35/ns-3.35/src/lte/model.sav/pw-ff-mac-scheduler.cc:1029-1291 | the feedback pass follows the pass function on the HARQ records, keeps them well formed on the same RNTIs with RVs at most 3, leaves rbgAllocatedNum counting the used RBGs, and gives each RNTI at most one retransmission |
| DlRetxProps.DistinctCard | ns-allinone-3.35/ns-3.35/src/lte/model.sav/pw-ff-mac-scheduler.cc:1174-1178 | a list of distinct RBGs has as many elements as its set, so the count raised per RBG equals the RBGs marked |
| DlRetxProps.LastOld | ns-allinone-3.35/ns-3.35/src/lte/model.sav/pw-ff-mac-scheduler.cc:1157-1158 | the scan starts at an RBG the NACKed transmission used, inside the cell |
| DlRetxProps.StepGrows | ns-allinone-3.35/ns-3.35/src/lte/model.sav/pw-ff-mac-scheduler.cc:1052-1289 | an RNTI already served is skipped; any other step keeps the map's length, never frees a used RBG, keeps the RNTIs and only appends to the served set, the data elements and the kept feedback |
| DlRetxProps.PassAllGrows | ns-allinone-3.35/ns-3.35/src/lte/model.sav/pw-ff-mac-scheduler.cc:1052-1289 | the whole pass keeps the map's length, never frees a used RBG, keeps the RNTIs and only appends data elements |
| DlRetxProps.StepFreesProcess | ns-allinone-3.35/ns-3.35/src/lte/model.sav/pw-ff-mac-scheduler.cc:1096-1116 | an ACK, or a NACK at RV 3, makes the process idle with empty PDU lists, leaves every other process, DCI, timer and UE as it was, and sends, marks and keeps nothing |
| DlRetxProps.RetxSends | ns-allinone-3.35/ns-3.35/src/lte/model.sav/pw-ff-mac-scheduler.cc:1190-1267 | a retransmission adds one data element for the RNTI whose DCI keeps RNTI, process and TPC, has NDI 0 per layer, the stored RV plus one on a NACKed layer and an empty block on an ACKed one; the stored DCI takes the RVs sent, the timer restarts, and nothing else of any UE changes |
| DlRetxProps.StepPlaced | ns-allinone-3.35/ns-3.35/src/lte/model.sav/pw-ff-mac-scheduler.cc:1117-1189 | a retransmission's map, count and kept feedback are those of the RBG choice, and its data element carries the chosen bitmap |
| DlRetxProps.OldRbgsBits | ns-allinone-3.35/ns-3.35/src/lte/model.sav/pw-ff-mac-scheduler.cc:1119-1130 | the RBGs decoded are exactly the set bits of the bitmap inside the cell, as many as the bitmap has bits |
| DlRetxProps.RetxReuse | ns-allinone-3.35/ns-3.35/src/lte/model.sav/pw-ff-mac-scheduler.cc:1140-1152 | with the original RBGs all free the retransmission is sent on its original bitmap, whose RBGs were free; exactly they are marked and counted and nothing is kept |
| DlRetxProps.MovedBits | ns-allinone-3.35/ns-3.35/src/lte/model.sav/pw-ff-mac-scheduler.cc:1173-1179 | the mask of the moved RBGs has exactly their bits, as many as were asked for |
| DlRetxProps.MovedFree | ns-allinone-3.35/ns-3.35/src/lte/model.sav/pw-ff-mac-scheduler.cc:1160-1169 | every moved RBG was free and is not the last original RBG |
| DlRetxProps.MovedFirst | ns-allinone-3.35/ns-3.35/src/lte/model.sav/pw-ff-mac-scheduler.cc:1160-1169 | no free RBG left out of the move comes earlier in the scan than one taken |
| DlRetxProps.PlaceMove | ns-allinone-3.35/ns-3.35/src/lte/model.sav/pw-ff-mac-scheduler.cc:1153-1182 | the move gives a bitmap with as many RBGs as the original, each free and not the start, the first ones in scan order, with exactly those marked and counted and nothing kept |
| DlRetxProps.RetxMove | ns-allinone-3.35/ns-3.35/src/lte/model.sav/pw-ff-mac-scheduler.cc:1153-1182 | a moved retransmission is sent on as many RBGs as before, each free and not the start, the first ones in scan order, exactly those marked and counted, nothing kept |
| DlRetxProps.RetxKept | ns-allinone-3.35/ns-3.35/src/lte/model.sav/pw-ff-mac-scheduler.cc:1183-1188 | with too few free RBGs nothing is marked or counted and the feedback is kept for the next TTI, yet the retransmission is still sent, on its original bitmap, which holds an RBG in use |
| DlHarq.ScanIdle | ns-allinone-3.35/ns-3.35/src/lte/model.sav/pw-ff-mac-scheduler.cc:769-775 | the scan after the current process stops on an idle process exactly when one exists, the nearest one in scan order |
| DlHarq.IdleScan | ns-allinone-3.35/ns-3.35/src/lte/model.sav/pw-ff-mac-scheduler.cc:769-775 | the scan ends on one of the eight processes |
| DlHarq.IdleScanFinds | ns-allinone-3.35/ns-3.35/src/lte/model.sav/pw-ff-mac-scheduler.cc:769-775 | scanning on from a point with no idle process before it finds an idle process exactly when there is one, and the nearest one |
| DlHarq.RefreshMany | ns-allinone-3.35/ns-3.35/src/lte/model.sav/pw-ff-mac-scheduler.cc:794-817 | repeated refreshes keep one state and one timer per process |
| DlHarq.RefreshKeepsTimersBounded | ns-allinone-3.35/ns-3.35/src/lte/model.sav/pw-ff-mac-scheduler.cc:797-815 | timers at most the timeout (below 255) stay at most the timeout and never wrap; a timer below it advances by one; a state either stays or becomes idle |
| DlHarq.RefreshFreesWithin | ns-allinone-3.35/ns-3.35/src/lte/model.sav/pw-ff-mac-scheduler.cc:797-815 | a process not used again is idle after its timer reaches the timeout, within timeout minus its timer plus one refreshes |
| DlHarq.RefreshClimbs | ns-allinone-3.35/ns-3.35/src/lte/model.sav/pw-ff-mac-scheduler.cc:797-815 | before the timeout a timer climbs by one per refresh and all timers stay within the timeout |
| DlHarq.RefreshSlots | ns-allinone-3.35/ns-3.35/src/lte/model.sav/pw-ff-mac-scheduler.cc:797-816 | the loop over one UE's eight processes computes the timers and states of one refresh |
| DlHarq.NextProcessId | ns-allinone-3.35/ns-3.35/src/lte/model.sav/pw-ff-mac-scheduler.cc:769-778 | the process picked is idle exactly when some process is idle, and no idle process comes before it after the current one |
| DlHarq.AddPdu | ns-allinone-3.35/ns-3.35/src/lte/model.sav/pw-ff-mac-scheduler.cc:1621-1630 | keeping a PDU on a process keeps the record well formed |
| DlHarq.NewUeOk | ns-allinone-3.35/ns-3.35/src/lte/model.sav/pw-ff-mac-scheduler.cc:452-466 | a newly configured UE has eight idle processes with timers at 0 and empty PDU lists on both layers |
| DlHarq.ConfigureThenRelease | ns-allinone-3.35/ns-3.35/src/lte/model.sav/pw-ff-mac-scheduler.cc:448-474 | configuring a new RNTI and releasing it gives the maps back as they were |
| DlHarq.RefreshUeOk | ns-allinone-3.35/ns-3.35/src/lte/model.sav/pw-ff-mac-scheduler.cc:797-816 | one refresh keeps a UE's record well formed |
| DlHarq.RefreshBelowOk | ns-allinone-3.35/ns-3.35/src/lte/model.sav/pw-ff-mac-scheduler.cc:794-817 | the refresh walk keeps every record well formed and the same RNTIs |
| DlHarq.RefreshBelowStep | ns-allinone-3.35/ns-3.35/src/lte/model.sav/pw-ff-mac-scheduler.cc:794-817 | past an RNTI with HARQ records the walk refreshes exactly that RNTI |
| DlHarq.RefreshBelowEnds | ns-allinone-3.35/ns-3.35/src/lte/model.sav/pw-ff-mac-scheduler.cc:794-817 | the walk starts from the records and ends on the refresh of every UE |
| DlHarq.RefreshAllEffect | ns-allinone-3.35/ns-3.35/src/lte/model.sav/pw-ff-mac-scheduler.cc:797-815 | a process whose timer was at the timeout is idle with its timer restarted; any other keeps its state, and a timer below the timeout advances by one; the current id, DCIs and PDU lists stay and no UE is added or lost |
| DlHarq.DlHarqProcesses.constructor | ns-allinone-3.35/ns-3.35/src/lte/model.sav/pw-ff-mac-scheduler.cc:191-210 | the scheduler starts with no HARQ records and no kept feedback |
| DlHarq.DlHarqProcesses.ConfigureUe | ns-allinone-3.35/ns-3.35/src/lte/model.sav/pw-ff-mac-scheduler.cc:448-478 | a new RNTI gets idle processes with empty buffers; a known RNTI keeps its HARQ records |
| DlHarq.DlHarqProcesses.ReleaseUe | ns-allinone-3.35/ns-3.35/src/lte/model.sav/pw-ff-mac-scheduler.cc:599-607 | the RNTI's HARQ records are erased and nothing else changes |
| DlHarq.DlHarqProcesses.HarqProcessAvailability | ns-allinone-3.35/ns-3.35/src/lte/model.sav/pw-ff-mac-scheduler.cc:716-744 | the answer is yes exactly when the UE has an idle process |
| DlHarq.DlHarqProcesses.UpdateHarqProcessId | ns-allinone-3.35/ns-3.35/src/lte/model.sav/pw-ff-mac-scheduler.cc:749-786 | with HARQ off the process is 0 and nothing changes; otherwise the nearest idle process after the current one becomes busy and current, and nothing else changes |
| DlHarq.DlHarqProcesses.StoreDci | ns-allinone-3.35/ns-3.35/src/lte/model.sav/pw-ff-mac-scheduler.cc:1688-1704 | the DCI is kept on its process and the process timer restarts; nothing else changes |
| DlHarq.DlHarqProcesses.BufferPdu | ns-allinone-3.35/ns-3.35/src/lte/model.sav/pw-ff-mac-scheduler.cc:1621-1630 | the PDU joins the list of its layer on its process; nothing else changes |
| DlHarq.DlHarqProcesses.RefreshHarqProcesses | ns-allinone-3.35/ns-3.35/src/lte/model.sav/pw-ff-mac-scheduler.cc:790-819 | every UE's timers are refreshed in RNTI order and a process whose timer was at the timeout becomes idle |
| Pfs.PfsInitFracPrioInfo | ns-allinone-3.35/ns-3.35/src/lte/model.sav/pw-ff-mac-scheduler.cc:3281-3289 | a fresh fairness record has no bytes and level 0, and one level's worth is the configured rate over the levels, rounded up |
| Pfs.PfsUpdFracPrioInfo | ns-allinone-3.35/ns-3.35/src/lte/model.sav/pw-ff-mac-scheduler.cc:3268-3278 | the update keeps the rate, leaves a remainder below one level's worth and a level at most the cap, never lowers a level below the cap, and below the cap loses no byte |
| Pfs.FracPrioMonotone | ns-allinone-3.35/ns-3.35/src/lte/model.sav/pw-ff-mac-scheduler.cc:3268-3278 | serving more bytes never gives a lower fairness level |
| Pfs.PfsUlLcgUpd | ns-allinone-3.35/ns-3.35/src/lte/model.sav/pw-ff-mac-scheduler.cc:3243-3264 | a data indication changes only the fairness records: the UE's for a non-GBR LCG; for a GBR LCG only that LCG's, re-initialised from its MBR and charged with the MBR left when the GBR is met and the rate exceeds the MBR left, else charged with the rate |
| Pfs.RrLikePrio | ns-allinone-3.35/ns-3.35/src/lte/model.sav/pw-ff-mac-scheduler.cc:3566-3581 | the round-robin-like priority is a 32-bit value, 0 for LCG priorities 0 and 9 |
| Pfs.RrLikePrioOrder | ns-allinone-3.35/ns-3.35/src/lte/model.sav/pw-ff-mac-scheduler.cc:3577-3578 | within the tables' ranges the priority does not wrap, and a more important LCG, a better CQI priority or a larger fairness weight each give a strictly higher priority |
| Pfs.PfsUlUpdPfsPrio | ns-allinone-3.35/ns-3.35/src/lte/model.sav/pw-ff-mac-scheduler.cc:3541-3609 | the priority becomes the round-robin-like priority of the UE's LCG priority, CQI priority and fairness weight, the change flag is set exactly when the priority changed, and nothing else of the record changes |
| Pfs.SelectPrioLcg | ns-allinone-3.35/ns-3.35/src/lte/model.sav/pw-ff-mac-scheduler.cc:3341-3367 | the loop over the LCGs from 1 up picks the LCG of the scan |
| Pfs.PrioLcgChoice | ns-allinone-3.35/ns-3.35/src/lte/model.sav/pw-ff-mac-scheduler.cc:3341-3367 | no LCG is picked exactly when no LCG from 1 up has data; otherwise the LCG picked has data, every earlier one with data is a GBR LCG whose rate is met, and a non-GBR LCG is picked only as the first one with data |
| Pfs.PrioLcgFromChoice | ns-allinone-3.35/ns-3.35/src/lte/model.sav/pw-ff-mac-scheduler.cc:3341-3367 | the scan keeps its choice invariant from any point on |
| Pfs.TotalBsZeroIff | ns-allinone-3.35/ns-3.35/src/lte/model.sav/pw-ff-mac-scheduler.cc:3230-3232 | with non-negative buffer sizes the total is zero exactly when every buffer is empty |
| Pfs.SumBufferStatus | ns-allinone-3.35/ns-3.35/src/lte/model.sav/pw-ff-mac-scheduler.cc:3225-3238 | the loop sums the buffers of the LCGs into a 32-bit total |
| Pfs.GetNumFlows | ns-allinone-3.35/ns-3.35/src/lte/model.sav/pw-ff-mac-scheduler.cc:3060-3085 | the count is the number of RNTIs with data in some LCG and no retransmission placed this TTI |
| Pfs.FlowsBelowStep | ns-allinone-3.35/ns-3.35/src/lte/model.sav/pw-ff-mac-scheduler.cc:3065-3079 | the walk over the reports adds an RNTI exactly when it has data and was not allocated |
| Pfs.PrbRequest | ns-allinone-3.35/ns-3.35/src/lte/model.sav/pw-ff-mac-scheduler.cc:3050 | the resource blocks asked for are never negative |
| Pfs.PrbRequestAsWritten | ns-allinone-3.35/ns-3.35/src/lte/model.sav/pw-ff-mac-scheduler.cc:3050 | formed in 32 bits, the request agrees with the exact one below 2^19 buffered bytes |
| Pfs.PrbRequestAsWrittenWraps | ns-allinone-3.35/ns-3.35/src/lte/model.sav/pw-ff-mac-scheduler.cc:3050 | at 2^19 buffered bytes the 32-bit product wraps to a request of no resource block, while one byte less needs many |
| Pfs.GetNumSbs | ns-allinone-3.35/ns-3.35/src/lte/model.sav/pw-ff-mac-scheduler.cc:3046-3057 | at least one sub-band, the fewest sub-bands that cover the resource blocks asked for |
| Pfs.GetNumSbsMonotone | ns-allinone-3.35/ns-3.35/src/lte/model.sav/pw-ff-mac-scheduler.cc:3046-3057 | more buffered data never asks for fewer resource blocks or sub-bands |
| PfsLists.FirstLowerPrio | ns-allinone-3.35/ns-3.35/src/lte/model.sav/pw-ff-mac-scheduler.cc:3494-3503 | every entry before the position has at least the priority and the entry at it, if any, a strictly lower one |
| PfsLists.PfsUlAddUeToQ | ns-allinone-3.35/ns-3.35/src/lte/model.sav/pw-ff-mac-scheduler.cc:3491-3507 | the loop inserts the UE where the priority-order insert puts it |
| PfsLists.FirstLowerPrioIs | ns-allinone-3.35/ns-3.35/src/lte/model.sav/pw-ff-mac-scheduler.cc:3494-3503 | the insert position is the only one with those two properties |
| PfsLists.InsertAtIndex | ns-allinone-3.35/ns-3.35/src/lte/model.sav/pw-ff-mac-scheduler.cc:3496 | inserting at a position shifts the later entries by one and keeps the earlier ones |
| PfsLists.InsertAtMultiset | ns-allinone-3.35/ns-3.35/src/lte/model.sav/pw-ff-mac-scheduler.cc:3496 | inserting adds exactly the one entry |
| PfsLists.InsertByPrioSorted | ns-allinone-3.35/ns-3.35/src/lte/model.sav/pw-ff-mac-scheduler.cc:3488-3507 | inserting keeps a queue in descending priority order, grows it by one entry and loses none |
| PfsLists.RemoveFromQueue | ns-allinone-3.35/ns-3.35/src/lte/model.sav/pw-ff-mac-scheduler.cc:3476-3481 | the erase loop leaves the queue the skipping removal describes |
| PfsLists.EraseStep | ns-allinone-3.35/ns-3.35/src/lte/model.sav/pw-ff-mac-scheduler.cc:3478-3479 | erasing a matching entry and advancing skips the entry after it |
| PfsLists.KeepStep | ns-allinone-3.35/ns-3.35/src/lte/model.sav/pw-ff-mac-scheduler.cc:3476-3481 | an entry of another UE is kept and the loop moves on |
| PfsLists.FilterOut | ns-allinone-3.35/ns-3.35/src/lte/model.sav/pw-ff-mac-scheduler.cc:3468-3486 | the UE's entries are all gone from the filtered queue |
| PfsLists.RemoveSkippingOnce | ns-allinone-3.35/ns-3.35/src/lte/model.sav/pw-ff-mac-scheduler.cc:3468-3486 | when the UE occurs at most once, the erase loop removes exactly its entry and keeps the others in order |
| PfsLists.RemoveSkippingNone | ns-allinone-3.35/ns-3.35/src/lte/model.sav/pw-ff-mac-scheduler.cc:3476-3481 | a queue without the UE is left as it was |
| PfsLists.NoneFiltered | ns-allinone-3.35/ns-3.35/src/lte/model.sav/pw-ff-mac-scheduler.cc:3476-3481 | filtering a queue without the UE changes nothing |
| PfsLists.RemoveSkippingSubset | ns-allinone-3.35/ns-3.35/src/lte/model.sav/pw-ff-mac-scheduler.cc:3476-3481 | every entry the erase loop keeps was in the queue |
| PfsLists.RemoveSkippingSorted | ns-allinone-3.35/ns-3.35/src/lte/model.sav/pw-ff-mac-scheduler.cc:3468-3486 | removing a UE keeps a queue in descending priority order |
| PfsLists.HeadSorted | ns-allinone-3.35/ns-3.35/src/lte/model.sav/pw-ff-mac-scheduler.cc:3488-3507 | an entry of at least every priority in the queue can lead it |
| PfsLists.FirstGreaterReq | ns-allinone-3.35/ns-3.35/src/lte/model.sav/pw-ff-mac-scheduler.cc:3024-3038 | every entry before the position requests at most the key and the entry at it, if any, more |
| PfsLists.FirstGreaterReqIs | ns-allinone-3.35/ns-3.35/src/lte/model.sav/pw-ff-mac-scheduler.cc:3024-3038 | the insert position is the only one with those two properties |
| PfsLists.SortAndInsertUeLst | ns-allinone-3.35/ns-3.35/src/lte/model.sav/pw-ff-mac-scheduler.cc:3021-3043 | the loop inserts the UE where the request-order insert puts it |
| PfsLists.InsertByReqSorted | ns-allinone-3.35/ns-3.35/src/lte/model.sav/pw-ff-mac-scheduler.cc:3021-3043 | with the UE's own request as key the list stays in ascending request order, grows by one entry and loses none |
| PfsLists.FirstGreaterShare | ns-allinone-3.35/ns-3.35/src/lte/model.sav/pw-ff-mac-scheduler.cc:2994-3016 | every entry before the position has at most the share and the entry at it, if any, a larger one |
| PfsLists.FirstGreaterShareIs | ns-allinone-3.35/ns-3.35/src/lte/model.sav/pw-ff-mac-scheduler.cc:2994-3016 | the insert position is the only one with those two properties |
| PfsLists.SortAndInsertUeLstSbShare | ns-allinone-3.35/ns-3.35/src/lte/model.sav/pw-ff-mac-scheduler.cc:2992-3019 | the loop puts a UE without a share at the end and any other before the first entry with a larger share |
| PfsLists.InsertByShareSorted | ns-allinone-3.35/ns-3.35/src/lte/model.sav/pw-ff-mac-scheduler.cc:2992-3019 | a UE with a share keeps the list in ascending share order; either way the list grows by one entry and loses none |
| PfsLists.InsertAtShareSorted | ns-allinone-3.35/ns-3.35/src/lte/model.sav/pw-ff-mac-scheduler.cc:3000-3001 | inserting at the share position keeps the list in ascending share order |
| PfsQueues.RemoveKeepsQueueOk | ns-allinone-3.35/ns-3.35/src/lte/model.sav/pw-ff-mac-scheduler.cc:3476-3481 | removing a UE from a queue keeps it sorted and holding only known UEs |
| PfsQueues.InsertKeepsQueueOk | ns-allinone-3.35/ns-3.35/src/lte/model.sav/pw-ff-mac-scheduler.cc:3491-3507 | inserting a known UE keeps a queue sorted and holding only known UEs |
| PfsQueues.QueueOkSameKeys | ns-allinone-3.35/ns-3.35/src/lte/model.sav/pw-ff-mac-scheduler.cc:3468-3486 | a queue stays valid while the set of known UEs is the same |
| PfsQueues.AfterRemoveOk | ns-allinone-3.35/ns-3.35/src/lte/model.sav/pw-ff-mac-scheduler.cc:3468-3486 | leaving its queue keeps every queue valid, keeps the queue counts and the UEs, and the record then names no queue and is otherwise unchanged |
| PfsQueues.RecordUpdateOk | ns-allinone-3.35/ns-3.35/src/lte/model.sav/pw-ff-mac-scheduler.cc:3370-3372 | replacing a record by one with a valid queue reference and a 32-bit priority keeps the queues valid |
| PfsQueues.GbrInsertOk | ns-allinone-3.35/ns-3.35/src/lte/model.sav/pw-ff-mac-scheduler.cc:3413-3416 | inserting a known UE into a GBR queue and pointing its record at it keeps the queues valid |
| PfsQueues.AmbrInsertOk | ns-allinone-3.35/ns-3.35/src/lte/model.sav/pw-ff-mac-scheduler.cc:3443-3461 | inserting a known UE into an AMBR queue and pointing its record at it keeps the queues valid |
| PfsQueues.InsertContains | ns-allinone-3.35/ns-3.35/src/lte/model.sav/pw-ff-mac-scheduler.cc:3491-3507 | the inserted UE is in the queue afterwards |
| PfsQueues.AfterAddOk | ns-allinone-3.35/ns-3.35/src/lte/model.sav/pw-ff-mac-scheduler.cc:3393-3465 | queueing keeps every queue valid and every other UE's record; a UE (re)queued with a GBR owed sits in the GBR queue its priority selects, with only the AMBR owed in that AMBR queue, and its record names it |
| PfsSelect.CtxOkDefined | ns-allinone-3.35/ns-3.35/src/lte/model.sav/pw-ff-mac-scheduler.cc:2966 | every known record has what the sub-band request needs |
| PfsSelect.NumSbsOf | ns-allinone-3.35/ns-3.35/src/lte/model.sav/pw-ff-mac-scheduler.cc:2966 | a record's sub-band request is at least one |
| PfsSelect.OnlyRequestsTrans | ns-allinone-3.35/ns-3.35/src/lte/model.sav/pw-ff-mac-scheduler.cc:2947-2989 | two walks that change only requests change only requests together |
| PfsSelect.SchedStepFields | ns-allinone-3.35/ns-3.35/src/lte/model.sav/pw-ff-mac-scheduler.cc:2966-2970 | one entry changes the records only in the request of its own UE |
| PfsSelect.SchedSeqFields | ns-allinone-3.35/ns-3.35/src/lte/model.sav/pw-ff-mac-scheduler.cc:2929-2942 | walking queue entries changes the records only in their requests |
| PfsSelect.SchedSeqAppend | ns-allinone-3.35/ns-3.35/src/lte/model.sav/pw-ff-mac-scheduler.cc:2901-2908 | walking two runs of entries is walking the first, then the second |
| PfsSelect.SchedStepOk | ns-allinone-3.35/ns-3.35/src/lte/model.sav/pw-ff-mac-scheduler.cc:2947-2989 | an entry of a UE that got a retransmission, or of no known UE, changes nothing; otherwise the list gains one UE in request order, the record stores its request and the 32-bit priority total grows by its priority |
| PfsSelect.SchedSeqOk | ns-allinone-3.35/ns-3.35/src/lte/model.sav/pw-ff-mac-scheduler.cc:2929-2942 | walking entries keeps the list sorted by request, free of UEs that got a retransmission and in agreement with the records, adding at most one UE per entry |
| PfsSelect.Take | ns-allinone-3.35/ns-3.35/src/lte/model.sav/pw-ff-mac-scheduler.cc:2933-2937 | at most the given number of entries, and at most all of them |
| PfsSelect.TakeAppendShort | ns-allinone-3.35/ns-3.35/src/lte/model.sav/pw-ff-mac-scheduler.cc:2901-2908 | a queue shorter than the UEs still to visit is visited whole and the rest go to the next queues |
| PfsSelect.TakeAppendLong | ns-allinone-3.35/ns-3.35/src/lte/model.sav/pw-ff-mac-scheduler.cc:2901-2908 | once a queue has as many entries as UEs still to visit, no later queue is visited |
| PfsSelect.KnownFlatten | ns-allinone-3.35/ns-3.35/src/lte/model.sav/pw-ff-mac-scheduler.cc:2901-2908 | entries of queues holding only known UEs are of known UEs |
| PfsSelect.ShareStepAsWritten | ns-allinone-3.35/ns-3.35/src/lte/model.sav/pw-ff-mac-scheduler.cc:2827-2875 | as written the used and free counts move by the share in 32 bits |
| PfsSelect.SharesAsWritten | ns-allinone-3.35/ns-3.35/src/lte/model.sav/pw-ff-mac-scheduler.cc:2814-2885 | as written the distribution gives one share per UE |
| PfsSelect.DisributeSbsAsWrittenOverAllocates | ns-allinone-3.35/ns-3.35/src/lte/model.sav/pw-ff-mac-scheduler.cc:2848-2853 | three UEs of priority 1 asking five sub-bands each, with two available, get 1, 5 and 5 sub-bands: eleven used for two |
| PfsSelect.SharesAsWrittenCons | ns-allinone-3.35/ns-3.35/src/lte/model.sav/pw-ff-mac-scheduler.cc:2825-2881 | the distribution is one UE's share followed by the distribution of the rest |
| PfsSelect.ShareStep | ns-allinone-3.35/ns-3.35/src/lte/model.sav/pw-ff-mac-scheduler.cc:2827-2875 | as intended a share never exceeds the free sub-bands or the request (one for an empty request), and the free and used counts move by it |
| PfsSelect.Shares | ns-allinone-3.35/ns-3.35/src/lte/model.sav/pw-ff-mac-scheduler.cc:2814-2885 | as intended the distribution gives one share per UE |
| PfsSelect.SharesWithinAvailable | ns-allinone-3.35/ns-3.35/src/lte/model.sav/pw-ff-mac-scheduler.cc:2814-2885 | as intended the shares add up to what the free count lost and never exceed the free sub-bands, each is at most its request, and the first UE finding sub-bands free gets one |
| PfsSelect.WithShares | ns-allinone-3.35/ns-3.35/src/lte/model.sav/pw-ff-mac-scheduler.cc:2848-2871 | each UE of the list gets its share and nothing else changes |
| PfsSelect.InsertByShareMultiset | ns-allinone-3.35/ns-3.35/src/lte/model.sav/pw-ff-mac-scheduler.cc:2877 | each insert into the allocation list adds exactly that UE |
| PfsSelect.InsertAllByShareOk | ns-allinone-3.35/ns-3.35/src/lte/model.sav/pw-ff-mac-scheduler.cc:2825-2881 | the allocation list holds exactly the UEs distributed to, and with every share positive it is in ascending share order |
| PfsSelect.UlRbAllocAsWrittenZeroPrb | ns-allinone-3.35/ns-3.35/src/lte/model.sav/pw-ff-mac-scheduler.cc:2768-2778 | as written a UE with one byte buffered at the lowest efficiency is given zero resource blocks, and the TBS table is then read for zero blocks |
| PfsSelect.Nprb | ns-allinone-3.35/ns-3.35/src/lte/model.sav/pw-ff-mac-scheduler.cc:2764-2776 | as intended the blocks are within the share and the power cap, zero only when the cap is zero, at least the request up to the cap, and the as-written count whenever that one is not zero |
| PfsSelect.AllocBytes | ns-allinone-3.35/ns-3.35/src/lte/model.sav/pw-ff-mac-scheduler.cc:2778 | no bytes without blocks; otherwise at least two bytes per block and at most the largest block |
| PfsSelect.RbStepOk | ns-allinone-3.35/ns-3.35/src/lte/model.sav/pw-ff-mac-scheduler.cc:2760-2807 | one UE's allocation keeps the records and reports it reads, keeps effective buffer sizes 32-bit and buffers non-negative, touches nothing else, and appends its grant within its bounds |
| PfsSelect.RbSeqShape | ns-allinone-3.35/ns-3.35/src/lte/model.sav/pw-ff-mac-scheduler.cc:2752-2811 | the pass keeps the records, the reports and their invariant, and appends one grant per entry |
| PfsSelect.RbSeqGrants | ns-allinone-3.35/ns-3.35/src/lte/model.sav/pw-ff-mac-scheduler.cc:2752-2811 | every entry is granted blocks within its share and power cap, in list order, and only effective buffer sizes and LCG 0 buffers change, never growing |
| PfsSelect.TouchedTrans | ns-allinone-3.35/ns-3.35/src/lte/model.sav/pw-ff-mac-scheduler.cc:2752-2811 | two allocations that only lower buffers together only lower buffers |
| PfsUplink.ReplaceRecordOk | ns-allinone-3.35/ns-3.35/src/lte/model.sav/pw-ff-mac-scheduler.cc:3393-3465 | a well-formed record with a sound queue reference may replace a record without breaking the queue invariant |
| PfsUplink.SameQueueFieldsOk | ns-allinone-3.35/ns-3.35/src/lte/model.sav/pw-ff-mac-scheduler.cc:3225-3264 | records that keep their queue fields and stay well formed keep the queue invariant |
| PfsUplink.AfterAddStateOk | ns-allinone-3.35/ns-3.35/src/lte/model.sav/pw-ff-mac-scheduler.cc:3393-3465 | (re)queueing a UE keeps the queue invariant |
| PfsUplink.BsrBuffers | ns-allinone-3.35/ns-3.35/src/lte/model.sav/pw-ff-mac-scheduler.cc:3100-3118 | a BSR entry whose LCG id matches its position is taken over with no served bytes; any other becomes an empty LCG with that id |
| PfsUplink.DataBuffers | ns-allinone-3.35/ns-3.35/src/lte/model.sav/pw-ff-mac-scheduler.cc:3152-3170 | a data indication yields empty LCGs except the one it names, copied from it |
| PfsUplink.WithEffBsr | ns-allinone-3.35/ns-3.35/src/lte/model.sav/pw-ff-mac-scheduler.cc:3225-3238 | the UE's effective buffer size becomes the 32-bit total of the report; nothing else changes and the invariant holds |
| PfsUplink.WithLcgUpd | ns-allinone-3.35/ns-3.35/src/lte/model.sav/pw-ff-mac-scheduler.cc:3243-3264 | the UE's record is updated by the served bytes of one LCG; nothing else changes and the invariant holds |
| PfsUplink.AfterMngUeInQ | ns-allinone-3.35/ns-3.35/src/lte/model.sav/pw-ff-mac-scheduler.cc:3294-3386 | managing a UE changes only its priority, LCG priority and queue fields, keeps the other UEs and the invariant |
| PfsUplink.MngUeInQEffect | ns-allinone-3.35/ns-3.35/src/lte/model.sav/pw-ff-mac-scheduler.cc:3294-3386 | SRB data sets the SRB/DRB priority; with no data beyond LCG 0 the queues stay; otherwise the chosen LCG has data, sets the LCG priority and the recomputed priority, and an unqueued or re-prioritised UE sits in the GBR or AMBR queue its priority selects |
| PfsUplink.WithCqiPrio | ns-allinone-3.35/ns-3.35/src/lte/model.sav/pw-ff-mac-scheduler.cc:3808-3810 | a CQI report changes only the reporting UE's CQI priority, to the new value, and keeps the queues, the other UEs and the invariant |
| PfsUplink.CqiRequeueEffect | ns-allinone-3.35/ns-3.35/src/lte/model.sav/pw-ff-mac-scheduler.cc:3808-3817 | a UE managed after a CQI report keeps the new CQI priority, and when some LCG from 1 up has data its recomputed priority is the round-robin-like priority of the new CQI priority |
| PfsUplink.NewRecord | ns-allinone-3.35/ns-3.35/src/lte/model.sav/pw-ff-mac-scheduler.cc:479-489 | a fresh record is unqueued with nothing buffered, the initial CQI priority and rate 10000 |
| PfsUplink.LcConfigSteps | ns-allinone-3.35/ns-3.35/src/lte/model.sav/pw-ff-mac-scheduler.cc:523-560 | the configuration loop keeps every LCG's fairness state |
| PfsUplink.LcConfigStepsEffect | ns-allinone-3.35/ns-3.35/src/lte/model.sav/pw-ff-mac-scheduler.cc:523-560 | after the loop an LCG some LC names has the first LC's priority, an unnamed one is unchanged, the configured rate sums the GBR rates while all are GBR and is zero right after a non-GBR LC |
| PfsUplink.LcConfigured | ns-allinone-3.35/ns-3.35/src/lte/model.sav/pw-ff-mac-scheduler.cc:523-561 | the LCG of the last LC gets its fairness state from its configured rate taken as 32 bits; the other LCGs keep theirs, and priorities and rates are those of the loop |
| PfsUplink.KnownTake | ns-allinone-3.35/ns-3.35/src/lte/model.sav/pw-ff-mac-scheduler.cc:2929-2937 | a prefix of a queue of known UEs holds only known UEs |
| PfsUplink.VisitStep | ns-allinone-3.35/ns-3.35/src/lte/model.sav/pw-ff-mac-scheduler.cc:2901-2908 | visiting at most the remaining entries of one queue and then of the rest is visiting that many entries of both, one after the other |
| PfsUplink.SchedPassSound | ns-allinone-3.35/ns-3.35/src/lte/model.sav/pw-ff-mac-scheduler.cc:2888-2927 | the pass yields a list sorted by request, in agreement with the records, free of UEs that got a retransmission and with at most the allowed UEs; records change only in their requests |
| PfsUplink.SchedPassOk | ns-allinone-3.35/ns-3.35/src/lte/model.sav/pw-ff-mac-scheduler.cc:2888-2927 | the pass keeps the queue invariant |
| PfsUplink.InsertByShareRequesting | ns-allinone-3.35/ns-3.35/src/lte/model.sav/pw-ff-mac-scheduler.cc:2992-3019 | inserting a requesting UE keeps a list of requesting UEs |
| PfsUplink.WrittenShares | ns-allinone-3.35/ns-3.35/src/lte/model.sav/pw-ff-mac-scheduler.cc:2814-2885 | as written the distribution gives one share per UE of the list |
| PfsUplink.IntendedShares | ns-allinone-3.35/ns-3.35/src/lte/model.sav/pw-ff-mac-scheduler.cc:2814-2885 | as intended the distribution gives one share per UE of the list |
| PfsUplink.IntendedSharesOk | ns-allinone-3.35/ns-3.35/src/lte/model.sav/pw-ff-mac-scheduler.cc:2814-2885 | as intended at most the available sub-bands are handed out and no UE gets more than its request |
| PfsUplink.PlaceShare | ns-allinone-3.35/ns-3.35/src/lte/model.sav/pw-ff-mac-scheduler.cc:2848-2877 | one loop step writes entry k's share and inserts it, keeping the allocation list of requesting UEs |
| PfsUplink.SharesAsWrittenAt | ns-allinone-3.35/ns-3.35/src/lte/model.sav/pw-ff-mac-scheduler.cc:2825-2881 | as written the shares from entry k on are entry k's share followed by those from k + 1 on |
| PfsUplink.SharesAt | ns-allinone-3.35/ns-3.35/src/lte/model.sav/pw-ff-mac-scheduler.cc:2825-2881 | as intended the shares from entry k on are entry k's share followed by those from k + 1 on, and the free count stays non-negative |
| PfsUplink.SharesUpToAsWritten | ns-allinone-3.35/ns-3.35/src/lte/model.sav/pw-ff-mac-scheduler.cc:2825-2881 | as written the loop computes one share for each entry it has been through |
| PfsUplink.SharesUpTo | ns-allinone-3.35/ns-3.35/src/lte/model.sav/pw-ff-mac-scheduler.cc:2825-2881 | as intended the loop computes one share for each entry it has been through and the free count stays non-negative |
| PfsUplink.SharesAsWrittenSplit | ns-allinone-3.35/ns-3.35/src/lte/model.sav/pw-ff-mac-scheduler.cc:2825-2881 | as written computing the shares from the front, as the loop does, agrees with the definition from the back |
| PfsUplink.SharesSplit | ns-allinone-3.35/ns-3.35/src/lte/model.sav/pw-ff-mac-scheduler.cc:2825-2881 | as intended computing the shares from the front agrees with the definition from the back |
| PfsUplink.SharesLoopAsWritten | ns-allinone-3.35/ns-3.35/src/lte/model.sav/pw-ff-mac-scheduler.cc:2825-2881 | the loop as written leaves every entry with its as-written share, inserts each into the allocation list and returns the sub-bands handed out |
| PfsUplink.SharesLoopAsWrittenDone | ns-allinone-3.35/ns-3.35/src/lte/model.sav/pw-ff-mac-scheduler.cc:2878-2883 | once through the list the as-written loop has computed the as-written distribution |
| PfsUplink.SharesLoop | ns-allinone-3.35/ns-3.35/src/lte/model.sav/pw-ff-mac-scheduler.cc:2825-2881 | the loop as intended leaves every entry with its intended share, inserts each into the allocation list and returns the sub-bands handed out |
| PfsUplink.SharesLoopDone | ns-allinone-3.35/ns-3.35/src/lte/model.sav/pw-ff-mac-scheduler.cc:2878-2883 | once through the list the intended loop has computed the intended distribution |
| PfsUplink.RbSeqStep | ns-allinone-3.35/ns-3.35/src/lte/model.sav/pw-ff-mac-scheduler.cc:2760-2807 | granting entry k extends the grants of the entries before it by one step |
| PfsUplink.RbTouchedOk | ns-allinone-3.35/ns-3.35/src/lte/model.sav/pw-ff-mac-scheduler.cc:2752-2811 | the allocation keeps the queue invariant and the stored reports well formed |
| PfsUplink.GrantEntry | ns-allinone-3.35/ns-3.35/src/lte/model.sav/pw-ff-mac-scheduler.cc:2760-2807 | one entry's grant computes the intended allocation step |
| PfsUplink.GrantAll | ns-allinone-3.35/ns-3.35/src/lte/model.sav/pw-ff-mac-scheduler.cc:2752-2811 | the loop grants every entry of the allocation list in order, as the intended allocation pass |
| PfsUplink.UplinkPfs.constructor | ns-allinone-3.35/ns-3.35/src/lte/model.sav/pw-ff-mac-scheduler.cc:191-210 | no records, reports or lists, and the given number of empty GBR and AMBR queues |
| PfsUplink.UplinkPfs.ConfigureUe | ns-allinone-3.35/ns-3.35/src/lte/model.sav/pw-ff-mac-scheduler.cc:479-497 | a new UE gets a fresh record; a known UE keeps its record |
| PfsUplink.UplinkPfs.ConfigureLcs | ns-allinone-3.35/ns-3.35/src/lte/model.sav/pw-ff-mac-scheduler.cc:523-561 | only the UE's LCG information changes, to the configured LCGs |
| PfsUplink.UplinkPfs.RemoveUeFromQueue | ns-allinone-3.35/ns-3.35/src/lte/model.sav/pw-ff-mac-scheduler.cc:3468-3486 | the state moves as removing the UE from its queue says, keeping the invariant |
| PfsUplink.UplinkPfs.AddUeToPfsQ | ns-allinone-3.35/ns-3.35/src/lte/model.sav/pw-ff-mac-scheduler.cc:3393-3465 | the state moves as adding the UE to its queue says, keeping the invariant |
| PfsUplink.UplinkPfs.UpdEffBsr | ns-allinone-3.35/ns-3.35/src/lte/model.sav/pw-ff-mac-scheduler.cc:3225-3238 | the state moves as setting the effective buffer size says |
| PfsUplink.UplinkPfs.LcgUpd | ns-allinone-3.35/ns-3.35/src/lte/model.sav/pw-ff-mac-scheduler.cc:3243-3264 | the state moves as the LCG fairness update says |
| PfsUplink.UplinkPfs.MngUeInQ | ns-allinone-3.35/ns-3.35/src/lte/model.sav/pw-ff-mac-scheduler.cc:3294-3386 | the state moves as managing the UE in the queues says |
| PfsUplink.UplinkPfs.UlCqiPrioUpd | ns-allinone-3.35/ns-3.35/src/lte/model.sav/pw-ff-mac-scheduler.cc:3805-3821 | the CQI priority becomes the throughput priority of the new TBS index, a UE with a stored buffer report is then managed in the queues, one without keeps its queue place, and the invariant holds |
| PfsUplink.UplinkPfs.ReceiveBsr | ns-allinone-3.35/ns-3.35/src/lte/model.sav/pw-ff-mac-scheduler.cc:3097-3135 | the report's buffers are stored for the UE, the effective buffer size is their total, and the UE is managed in the queues |
| PfsUplink.UplinkPfs.ReceiveDataIndication | ns-allinone-3.35/ns-3.35/src/lte/model.sav/pw-ff-mac-scheduler.cc:3149-3190 | the named LCG is copied into empty buffers, its fairness is updated, the stored report takes that LCG over (or all buffers for a first report), then the effective buffer size and queues are updated |
| PfsUplink.UplinkPfs.SchedUeForDat | ns-allinone-3.35/ns-3.35/src/lte/model.sav/pw-ff-mac-scheduler.cc:2947-2989 | the list to schedule moves as one entry's step says |
| PfsUplink.UplinkPfs.SchedData | ns-allinone-3.35/ns-3.35/src/lte/model.sav/pw-ff-mac-scheduler.cc:2929-2942 | at most the remaining entries of the queue are visited, and the remaining count drops by the number visited |
| PfsUplink.UplinkPfs.SchedQueues | ns-allinone-3.35/ns-3.35/src/lte/model.sav/pw-ff-mac-scheduler.cc:2901-2908 | the queues are visited from the highest index down, at most the remaining entries in all |
| PfsUplink.UplinkPfs.SchedAllQueues | ns-allinone-3.35/ns-3.35/src/lte/model.sav/pw-ff-mac-scheduler.cc:2901-2908 | the GBR queues are visited first, then the AMBR queues |
| PfsUplink.UplinkPfs.ScheduleUplinkUes | ns-allinone-3.35/ns-3.35/src/lte/model.sav/pw-ff-mac-scheduler.cc:2888-2927 | both lists and their totals are cleared, the list to schedule is the pass over the queues, and the invariant holds |
| PfsUplink.UplinkPfs.SchedFromEmpty | ns-allinone-3.35/ns-3.35/src/lte/model.sav/pw-ff-mac-scheduler.cc:2901-2908 | from empty lists the list to schedule is the pass over the queues |
| PfsUplink.UplinkPfs.ClearLists | ns-allinone-3.35/ns-3.35/src/lte/model.sav/pw-ff-mac-scheduler.cc:2889-2898 | both lists and their totals are empty |
| PfsUplink.UplinkPfs.DisributeSbsAsWritten | ns-allinone-3.35/ns-3.35/src/lte/model.sav/pw-ff-mac-scheduler.cc:2814-2885 | as written no UE means nothing is handed out; otherwise each UE gets its as-written share, is inserted into the allocation list, and the result is the sub-bands handed out |
| PfsUplink.UplinkPfs.DistributeSbs | ns-allinone-3.35/ns-3.35/src/lte/model.sav/pw-ff-mac-scheduler.cc:2814-2885 | as intended the same, with at most the available sub-bands handed out and each UE given at most its request |
| PfsUplink.UplinkPfs.UlRbAlloc | ns-allinone-3.35/ns-3.35/src/lte/model.sav/pw-ff-mac-scheduler.cc:2752-2811 | each entry of the allocation list, in order, is granted its resource blocks as the intended pass says, keeping the invariant |
| Power.TruncDiv | ns-allinone-3.35/ns-3.35/src/lte/model.sav/pw-ff-mac-scheduler.cc:4035-4062 | C division of a signed value by a positive one truncates toward zero |
| Power.CfgUeAsWritten | ns-allinone-3.35/ns-3.35/src/lte/model.sav/pw-ff-mac-scheduler.cc:4167-4247 | as written the new record stores the grant's TBS index unscaled in the average, and otherwise equals the intended record |
| Power.CfgUe | ns-allinone-3.35/ns-3.35/src/lte/model.sav/pw-ff-mac-scheduler.cc:4167-4247 | a new UE has no power correction, index average plus offset equal to a hundred times the grant's TBS index, a neutral TPC issued now, full power per resource block, the target CQI of its modulation, and margin steps whose ratio is the target block error rate |
| Power.SetTpcAsWritten | ns-allinone-3.35/ns-3.35/src/lte/model.sav/pw-ff-mac-scheduler.cc:4097-4147 | as written only the command changes: neutral while cooling off, otherwise a correction within a non-negative request, +3 dB at saturation, and -1 dB for any negative request |
| Power.SetTpc | ns-allinone-3.35/ns-3.35/src/lte/model.sav/pw-ff-mac-scheduler.cc:4097-4147 | as intended the same, except that a negative request of a UE with headroom 40 or more gives the neutral command |
| Power.SetTpcAgrees | ns-allinone-3.35/ns-3.35/src/lte/model.sav/pw-ff-mac-scheduler.cc:4111-4120 | the two agree exactly when not on the overwritten headroom branch |
| Power.SetTpcAsWrittenIgnoresHeadroom | ns-allinone-3.35/ns-3.35/src/lte/model.sav/pw-ff-mac-scheduler.cc:4111-4120 | a UE with headroom 40 asked to lower power gets the -1 dB command as written and the neutral one as intended |
| Power.PwrToRbTblNonDecreasing | ns-allinone-3.35/ns-3.35/src/lte/model.sav/pw-ff-mac-scheduler.cc:156-159 | the power-to-resource-block table never decreases |
| Power.GetPwrGetMaxRb | ns-allinone-3.35/ns-3.35/src/lte/model.sav/pw-ff-mac-scheduler.cc:4148-4164 | no headroom gives one block, enough for the band gives the band, and the count never exceeds the band |
| Power.GetPwrGetMaxRbMonotone | ns-allinone-3.35/ns-3.35/src/lte/model.sav/pw-ff-mac-scheduler.cc:4148-4164 | more headroom never buys fewer resource blocks |
| Power.GetUeAvailPwr | ns-allinone-3.35/ns-3.35/src/lte/model.sav/pw-ff-mac-scheduler.cc:4250-4347 | the command is chosen for the base headroom; the headroom left is the base less its correction, plus twice the target-CQI offset for a 64QAM UE in spectral-efficiency mode |
| Power.GrantLimit | ns-allinone-3.35/ns-3.35/src/lte/model.sav/pw-ff-mac-scheduler.cc:4418-4445 | the power-limited count clamped to [MIN_MAX_RBS, bandwidth-2] through 16 and then 8 bits |
| Power.MaxRbsFrom | ns-allinone-3.35/ns-3.35/src/lte/model.sav/pw-ff-mac-scheduler.cc:4418-4445 | the stored power-limited count, the grant limit from it, and a lower power per block after a power-lowering command |
| Power.GetMaxRbs | ns-allinone-3.35/ns-3.35/src/lte/model.sav/pw-ff-mac-scheduler.cc:4418-4445 | the grant limit lies in [MIN_MAX_RBS, bandwidth-2] for the headroom left after this TPC command; a power-lowering command lowers the power per block by 1 dB |
| Power.RemPusch | ns-allinone-3.35/ns-3.35/src/lte/model.sav/pw-ff-mac-scheduler.cc:4064-4095 | the remaining correction never exceeds what is wanted or what the headroom allows, and is zero when an increase is wanted with negative headroom |
| Power.SetRemPuschDelta | ns-allinone-3.35/ns-3.35/src/lte/model.sav/pw-ff-mac-scheduler.cc:4064-4095 | the remaining correction is at most twice the CQI gap, and positive only for a UE that has reported headroom, within it |
| Power.SetRemPuschDeltaSinr | ns-allinone-3.35/ns-3.35/src/lte/model.sav/pw-ff-mac-scheduler.cc:4035-4062 | the remaining correction is at most half the SINR gap truncated toward zero, and positive only for a UE that has reported headroom, within it |
| Power.GetPwrRbToPwrdB | ns-allinone-3.35/ns-3.35/src/lte/model.sav/pw-ff-mac-scheduler.cc:1923-1929 | the power of a block count, read at the band for more blocks than the band |
| Power.TargetCqiFor | ns-allinone-3.35/ns-3.35/src/lte/model.sav/pw-ff-mac-scheduler.cc:4350-4385 | the target CQI is one of the table's; the lowest loss band gives the first, a loss beyond the last threshold the last |
| Power.TargetCqiForMonotone | ns-allinone-3.35/ns-3.35/src/lte/model.sav/pw-ff-mac-scheduler.cc:4350-4385 | a larger non-negative path loss never raises the target CQI |
| Power.SetTargetCqi | ns-allinone-3.35/ns-3.35/src/lte/model.sav/pw-ff-mac-scheduler.cc:4350-4385 | only the target CQI changes, to the band's target plus three for 64QAM, within [5, 14] |
| Power.PwrUpdPhr | ns-allinone-3.35/ns-3.35/src/lte/model.sav/pw-ff-mac-scheduler.cc:3206-3222 | the report is stored and marked available, the power per block plus headroom plus the allocation's power is the UE maximum, and the target CQI is the VoLTE one or recomputed |
| Power.UlGetItbs | ns-allinone-3.35/ns-3.35/src/lte/model.sav/pw-ff-mac-scheduler.cc:4399-4415 | the TBS index lies in [0, maxItbs] |
| Power.UlGetItbsInLoop | ns-allinone-3.35/ns-3.35/src/lte/model.sav/pw-ff-mac-scheduler.cc:4399-4415 | inside the outer loop's range the index is the whole part of average plus offset |
| Power.HarqCrcFail | ns-allinone-3.35/ns-3.35/src/lte/model.sav/pw-ff-mac-scheduler.cc:1883-1901 | spectral mode lowers the TBS offset by exactly 0.30, or to TBS index 0 when that would go below it, changing nothing else; otherwise the SINR margin rises by exactly the up-step, or to 4000 when that would exceed it, and stays put at the link edge |
| Power.HarqCrcOk | ns-allinone-3.35/ns-3.35/src/lte/model.sav/pw-ff-mac-scheduler.cc:1904-1920 | spectral mode raises the TBS offset by exactly 0.03, or to the highest CQI's index when that would exceed it, changing nothing else; otherwise the margin falls by exactly the down-step, or to -4000 when that would go below it |
| Power.ItbsLoopKept | ns-allinone-3.35/ns-3.35/src/lte/model.sav/pw-ff-mac-scheduler.cc:1883-1920 | either CRC outcome keeps the effective TBS index in its range |
| Power.CrcKeepsPowerOk | ns-allinone-3.35/ns-3.35/src/lte/model.sav/pw-ff-mac-scheduler.cc:1883-1920 | either CRC outcome keeps the record's bounds |
| Power.SmoothItbsBetween | ns-allinone-3.35/ns-3.35/src/lte/model.sav/pw-ff-mac-scheduler.cc:4492-4542 | the smoothed TBS index lies between the old average and the new index |
| Power.SpectralEfficiencyCqi | ns-allinone-3.35/ns-3.35/src/lte/model.sav/pw-ff-mac-scheduler.cc:4492-4542 | the CQI is the headroom-adjusted CQI of the MCS, the TBS index at most the highest CQI's, the MCS maps back to it, the average is smoothed or seeded, and the remaining correction is recomputed |
| Power.ItbsForSinr | ns-allinone-3.35/ns-3.35/src/lte/model.sav/pw-ff-mac-scheduler.cc:4596-4649 | the TBS index of the SINR table, capped for 16QAM and for VoLTE, and equal to the table's entry when no cap acts |
| Power.AdaptToSinr | ns-allinone-3.35/ns-3.35/src/lte/model.sav/pw-ff-mac-scheduler.cc:4596-4649 | the capped TBS index, an MCS that maps back to it, a CQI within 14, and the remaining correction for the effective SINR |
| Power.SpectralEfficiencySinr | ns-allinone-3.35/ns-3.35/src/lte/model.sav/pw-ff-mac-scheduler.cc:4596-4649 | the smoothed SINR is seeded or stays between its old value and the sample, and the rest is the adaptation to the smoothed SINR less the margin |
| Power.DciPowerUpdate | ns-allinone-3.35/ns-3.35/src/lte/model.sav/pw-ff-mac-scheduler.cc:1653-1681 | outside UE_EFF mode the correction leaves the remaining correction and enters f(i), clamped; a reported headroom falls by it, floored at -23 dB; a non-neutral command starts a cool-off window now |
| Power.CoolOffAfterCommand | ns-allinone-3.35/ns-3.35/src/lte/model.sav/pw-ff-mac-scheduler.cc:4105-4137 | after a non-neutral command the next COOL_OFF_PERIOD_DURATION TTIs give neutral commands and the one after may act |
| Power.StepsKeepPowerOk | ns-allinone-3.35/ns-3.35/src/lte/model.sav/pw-ff-mac-scheduler.cc:1653-1681 | the TPC choice, the DCI update, the remaining-correction update and the target-CQI update keep the record's bounds |
| Rach.CountUsed | ns-allinone-3.35/ns-3.35/src/lte/model.sav/pw-ff-mac-scheduler.cc:899-920 | the number of used resource blocks is at most the map's length |
| Rach.RunsSplit | ns-allinone-3.35/ns-3.35/src/lte/model.sav/pw-ff-mac-scheduler.cc:899-926 | a free run ending before the current one ends before the used block that closed it, or starts inside the current run |
| Rach.LongestFreeRun | ns-allinone-3.35/ns-3.35/src/lte/model.sav/pw-ff-mac-scheduler.cc:889-926 | the used-block count, and the first longest run of free blocks at its offset |
| Rach.TbBits | ns-allinone-3.35/ns-3.35/src/lte/model.sav/pw-ff-mac-scheduler.cc:953 | the grant size in bits read through the 16-bit variable |
| Rach.UlBitsUpTo | ns-allinone-3.35/ns-3.35/src/lte/model.sav/pw-ff-mac-scheduler.cc:950-954 | one entry per block count up to n |
| Rach.UlBits | ns-allinone-3.35/ns-3.35/src/lte/model.sav/pw-ff-mac-scheduler.cc:950-954 | one entry per block count up to the largest band |
| Rach.UlBitsUpToAt | ns-allinone-3.35/ns-3.35/src/lte/model.sav/pw-ff-mac-scheduler.cc:950-954 | every entry is the grant bits for that block count |
| Rach.UlBitsAt | ns-allinone-3.35/ns-3.35/src/lte/model.sav/pw-ff-mac-scheduler.cc:953 | the entry for l blocks is the uplink TBS for l blocks taken to 16 bits |
| Rach.GrowFrom | ns-allinone-3.35/ns-3.35/src/lte/model.sav/pw-ff-mac-scheduler.cc:950-954 | growing from l blocks stops at the first length whose bits carry the estimate or at the end of the run, every shorter length falling short |
| Rach.GrantLengthSpec | ns-allinone-3.35/ns-3.35/src/lte/model.sav/pw-ff-mac-scheduler.cc:947-959 | a fitting grant is the shortest length of at least two blocks within the run that carries the estimate; otherwise no length of the run carries it |
| Rach.GrantShortest | ns-allinone-3.35/ns-3.35/src/lte/model.sav/pw-ff-mac-scheduler.cc:947-959 | the TBS of a length carries the estimate exactly when the length is at least the grant length |
| Rach.Run | ns-allinone-3.35/ns-3.35/src/lte/model.sav/pw-ff-mac-scheduler.cc:932-1013 | the next start stays within the run and at most one grant per request tried |
| Rach.Grants | ns-allinone-3.35/ns-3.35/src/lte/model.sav/pw-ff-mac-scheduler.cc:932-1013 | at most one grant per request |
| Rach.Tried | ns-allinone-3.35/ns-3.35/src/lte/model.sav/pw-ff-mac-scheduler.cc:932-1013 | the number of requests tried is at most the number of requests |
| Rach.RunCount | ns-allinone-3.35/ns-3.35/src/lte/model.sav/pw-ff-mac-scheduler.cc:955-1012 | a stopped loop has granted fewer requests than tried, a running one all of them, and the next start follows the grants |
| Rach.RunPrefix | ns-allinone-3.35/ns-3.35/src/lte/model.sav/pw-ff-mac-scheduler.cc:932-1013 | the grants of a shorter loop prefix those of a longer one, and once stopped the loop changes no more |
| Rach.TurnGrants | ns-allinone-3.35/ns-3.35/src/lte/model.sav/pw-ff-mac-scheduler.cc:945-1012 | a turn that does not stop grants its request the shortest fitting length from the current start with its size in bits divided by eight as the size in bytes |
| Rach.RunningAt | ns-allinone-3.35/ns-3.35/src/lte/model.sav/pw-ff-mac-scheduler.cc:932-1013 | the first k + 1 grants are made by a loop that has not stopped |
| Rach.GrantMade | ns-allinone-3.35/ns-3.35/src/lte/model.sav/pw-ff-mac-scheduler.cc:945-1012 | grant k is the shortest fitting grant of request k from where the grants before it end |
| Rach.GrantFit | ns-allinone-3.35/ns-3.35/src/lte/model.sav/pw-ff-mac-scheduler.cc:945-962 | each grant carries its request's RNTI and the grant MCS, starts inside the run, spans at least two blocks within it, carries the estimate with its TB size in bytes, and no shorter length would |
| Rach.GrantNext | ns-allinone-3.35/ns-3.35/src/lte/model.sav/pw-ff-mac-scheduler.cc:1011 | the first grant starts at the run's start and each later one where the previous ends |
| Rach.GrantsStop | ns-allinone-3.35/ns-3.35/src/lte/model.sav/pw-ff-mac-scheduler.cc:955-959 | the loop stops at the first request no length of the rest of the run can carry |
| Rach.Resize | ns-allinone-3.35/ns-3.35/src/lte/model.sav/pw-ff-mac-scheduler.cc:928 | the map resized to the band |
| Rach.MarkGrants | ns-allinone-3.35/ns-3.35/src/lte/model.sav/pw-ff-mac-scheduler.cc:968-971 | marking keeps the map's length |
| Rach.MarkGrantsSpec | ns-allinone-3.35/ns-3.35/src/lte/model.sav/pw-ff-mac-scheduler.cc:968-971 | a block inside a grant holds that grant's RNTI and every other block is unchanged |
| Rach.GrantsOrdered | ns-allinone-3.35/ns-3.35/src/lte/model.sav/pw-ff-mac-scheduler.cc:960-1011 | the grants do not overlap and follow one another |
| Rach.StoreGrants | ns-allinone-3.35/ns-3.35/src/lte/model.sav/pw-ff-mac-scheduler.cc:973-1009 | storing the grants' DCIs keeps the UEs and changes only their DCI buffers, keeping their size |
| Rach.CfgUesSpec | ns-allinone-3.35/ns-3.35/src/lte/model.sav/pw-ff-mac-scheduler.cc:941 | a UE is configured if it was or some tried request named it; known records are kept and new ones are the created record |
| Rach.GrowGrant | ns-allinone-3.35/ns-3.35/src/lte/model.sav/pw-ff-mac-scheduler.cc:947-954 | the loop computes the grant length and its bits |
| Rach.MarkRun | ns-allinone-3.35/ns-3.35/src/lte/model.sav/pw-ff-mac-scheduler.cc:968-971 | the blocks of the grant take its RNTI and the rest keep their values |
| Rach.RachTurn | ns-allinone-3.35/ns-3.35/src/lte/model.sav/pw-ff-mac-scheduler.cc:935-1012 | the UE is configured; the grant is made exactly when it fits, then marked and, with HARQ on, its DCI stored |
| Rach.MarkGrantsLast | ns-allinone-3.35/ns-3.35/src/lte/model.sav/pw-ff-mac-scheduler.cc:968-971 | marking one more grant is marking it over the earlier ones |
| Rach.StoreGrantsLast | ns-allinone-3.35/ns-3.35/src/lte/model.sav/pw-ff-mac-scheduler.cc:973-1009 | storing one more grant is storing it over the earlier ones |
| Rach.RunGrant | ns-allinone-3.35/ns-3.35/src/lte/model.sav/pw-ff-mac-scheduler.cc:945-1012 | a fitting request extends the grants by its grant and moves the start past it |
| Rach.RunStopsAt | ns-allinone-3.35/ns-3.35/src/lte/model.sav/pw-ff-mac-scheduler.cc:955-959 | a request that does not fit ends the loop with the grants made so far |
| Rach.RunThrough | ns-allinone-3.35/ns-3.35/src/lte/model.sav/pw-ff-mac-scheduler.cc:932-1013 | a loop that never stopped tried every request |
| Rach.ReachedNext | ns-allinone-3.35/ns-3.35/src/lte/model.sav/pw-ff-mac-scheduler.cc:945-1012 | one granted turn advances the loop's invariant by one request |
| Rach.ReachedStop | ns-allinone-3.35/ns-3.35/src/lte/model.sav/pw-ff-mac-scheduler.cc:955-959 | a turn that does not fit finishes the loop |
| Rach.ReachedEnd | ns-allinone-3.35/ns-3.35/src/lte/model.sav/pw-ff-mac-scheduler.cc:932-1013 | a loop through every request is finished |
| Rach.RachStep | ns-allinone-3.35/ns-3.35/src/lte/model.sav/pw-ff-mac-scheduler.cc:935-1012 | a granted turn keeps the loop's invariant one request further; otherwise the loop is finished |
| Rach.RachLoop | ns-allinone-3.35/ns-3.35/src/lte/model.sav/pw-ff-mac-scheduler.cc:929-1013 | the grants, the marked map, the configured UEs of every tried request and the stored DCIs are those of the loop's definition |
| Rach.CfgUesOk | ns-allinone-3.35/ns-3.35/src/lte/model.sav/pw-ff-mac-scheduler.cc:941 | configuring UEs keeps every power record within its bounds |
| Rach.StoreGrantsOk | ns-allinone-3.35/ns-3.35/src/lte/model.sav/pw-ff-mac-scheduler.cc:973-1009 | storing grants that fit the band keeps the HARQ records well formed |
| Rach.GrantsFit | ns-allinone-3.35/ns-3.35/src/lte/model.sav/pw-ff-mac-scheduler.cc:960-962 | every grant's DCI fits the band |
| Rach.RachGrants | ns-allinone-3.35/ns-3.35/src/lte/model.sav/pw-ff-mac-scheduler.cc:889-1013 | the longest free run, its grants, the marked resized map, the configured UEs and the stored DCIs, with power records and HARQ records kept well formed |
| Rach.RachAllocation | ns-allinone-3.35/ns-3.35/src/lte/model.sav/pw-ff-mac-scheduler.cc:889-1013 | the same on the power-control and HARQ objects, configuring each tried UE with the as-written record |
| RbgBitmap.AddBit | ns-allinone-3.35/ns-3.35/src/lte/model.sav/pw-ff-mac-scheduler.cc:1583-1587 | adding 1 << k to a bitmap whose bit k is clear sets bit k and leaves every other bit |
| RbgBitmap.ZeroBits | ns-allinone-3.35/ns-3.35/src/lte/model.sav/pw-ff-mac-scheduler.cc:1583 | the empty bitmap has no bit set |
| RbgBitmap.BitBelow | ns-allinone-3.35/ns-3.35/src/lte/model.sav/pw-ff-mac-scheduler.cc:1120-1130 | a bitmap below 2^n has no bit at n or above |
| RbgBitmap.AddBitBound | ns-allinone-3.35/ns-3.35/src/lte/model.sav/pw-ff-mac-scheduler.cc:1583-1587 | setting a clear bit below n keeps a bitmap below 2^n |
| RbgBitmap.MaskBits | ns-allinone-3.35/ns-3.35/src/lte/model.sav/pw-ff-mac-scheduler.cc:1583-1589 | the bitmap of distinct RBGs below n has exactly their bits and stays below 2^n |
| RbgBitmap.RbgsBelowSpec | ns-allinone-3.35/ns-3.35/src/lte/model.sav/pw-ff-mac-scheduler.cc:1120-1130 | decoding lists exactly the set bits below n, in ascending order |
| RbgBitmap.IncreasingUnique | ns-allinone-3.35/ns-3.35/src/lte/model.sav/pw-ff-mac-scheduler.cc:1120-1130 | two ascending lists with the same elements are the same list |
| RbgBitmap.MaskRoundTrip | ns-allinone-3.35/ns-3.35/src/lte/model.sav/pw-ff-mac-scheduler.cc:1120-1179 | decoding the bitmap built from an ascending list of RBGs below 32 gives back the list |
| RbgBitmap.DciRbgs | ns-allinone-3.35/ns-3.35/src/lte/model.sav/pw-ff-mac-scheduler.cc:1120-1130 | the decoding loop lists exactly the set bits of the bitmap below 32, ascending |
| RbgBitmap.BuildMask | ns-allinone-3.35/ns-3.35/src/lte/model.sav/pw-ff-mac-scheduler.cc:1583-1589 | the encoding loop builds a 32-bit bitmap with exactly the bits of the RBGs |
| DlRlc.DrainAsWritten | ns-allinone-3.35/ns-3.35/src/lte/model.sav/pw-ff-mac-scheduler.cc:3949-3998 | as written a PDU keeps every report field within its width |
| DlRlc.DrainAsWrittenTakesTooMuch | ns-allinone-3.35/ns-3.35/src/lte/model.sav/pw-ff-mac-scheduler.cc:3984-3990 | as written a one-byte PDU on a data channel empties a 1000-byte transmission queue, removing more bytes than it carries |
| DlRlc.Drain | ns-allinone-3.35/ns-3.35/src/lte/model.sav/pw-ff-mac-scheduler.cc:3949-3998 | as intended a PDU keeps every report field within its width |
| DlRlc.DrainBounded | ns-allinone-3.35/ns-3.35/src/lte/model.sav/pw-ff-mac-scheduler.cc:3957-3992 | a PDU drains at most one queue, never grows one, removes no more bytes than it carries, and agrees with the as-written drain when it is at least the header |
| DlRlc.DrainOrder | ns-allinone-3.35/ns-3.35/src/lte/model.sav/pw-ff-mac-scheduler.cc:3957-3992 | a fitting status PDU goes first, then a fitting retransmission queue, then the transmission queue by the PDU less the header |
| DlRlc.WithoutLcsEffect | ns-allinone-3.35/ns-3.35/src/lte/model.sav/pw-ff-mac-scheduler.cc:573-590 | releasing channels removes exactly the reports of those channels of that RNTI and keeps the others |
| DlRlc.WithoutUeEffect | ns-allinone-3.35/ns-3.35/src/lte/model.sav/pw-ff-mac-scheduler.cc:613-627 | a released UE has no active channel left and every other UE keeps its reports |
| DlRlc.ActiveBelowStep | ns-allinone-3.35/ns-3.35/src/lte/model.sav/pw-ff-mac-scheduler.cc:693-712 | counting one more channel id adds that channel when it is active |
| DlRlc.DlRlcBuffers.constructor | ns-allinone-3.35/ns-3.35/src/lte/model.sav/pw-ff-mac-scheduler.cc:191-210 | no reports |
| DlRlc.DlRlcBuffers.SchedDlRlcBufferReq | ns-allinone-3.35/ns-3.35/src/lte/model.sav/pw-ff-mac-scheduler.cc:638-659 | the channel's report is inserted or replaced |
| DlRlc.DlRlcBuffers.CschedLcReleaseReq | ns-allinone-3.35/ns-3.35/src/lte/model.sav/pw-ff-mac-scheduler.cc:570-592 | the reports of the listed channels of the RNTI are erased |
| DlRlc.DlRlcBuffers.ReleaseUe | ns-allinone-3.35/ns-3.35/src/lte/model.sav/pw-ff-mac-scheduler.cc:613-627 | every report of the RNTI is erased |
| DlRlc.DlRlcBuffers.LcActivePerFlow | ns-allinone-3.35/ns-3.35/src/lte/model.sav/pw-ff-mac-scheduler.cc:693-712 | the number of active channels of the RNTI |
| DlRlc.DlRlcBuffers.UpdateDlRlcBufferInfo | ns-allinone-3.35/ns-3.35/src/lte/model.sav/pw-ff-mac-scheduler.cc:3949-3998 | a known channel's report is drained as written by the PDU; an unknown channel changes nothing |
| SchedTables.UlSinrToItbsTblAsWrittenDrops | ns-allinone-3.35/ns-3.35/src/lte/model.sav/pw-ff-mac-scheduler.cc:107-119 | the declared 255-entry table has 26 at index 253 and 0 at index 254, so it is not non-decreasing |
| SchedTables.UlSinrToItbsRampNonDecreasing | ns-allinone-3.35/ns-3.35/src/lte/model.sav/pw-ff-mac-scheduler.cc:112-115 | the rising part of the table, 52 entries from index 117, never decreases |
| SchedTables.UlSinrToItbsTblNonDecreasing | ns-allinone-3.35/ns-3.35/src/lte/model.sav/pw-ff-mac-scheduler.cc:107-119 | the intended table has 255 entries, never lowers the TBS index as the SINR rises, runs from 0 to 26, and equals the declared one except at index 254 |
| SchedTables.SchedTbSize | ns-allinone-3.35/ns-3.35/src/lte/model.sav/pw-ff-mac-scheduler.cc:121-150 | the intended entry is between 16 bits per resource block and 75376, and equals the declared entry everywhere except TBS index 6 with one resource block |
| AmcInit.SchedTbSizeAsWrittenFalls | ns-allinone-3.35/ns-3.35/src/lte/model.sav/pw-ff-mac-scheduler.cc:128 | over the stored AMC table, the declared entry for TBS index 6 and one resource block is 328 and the next index gives 104, while the intended entry is 88 |
| SchedTables.SchedTbSizeMonotone | ns-allinone-3.35/ns-3.35/src/lte/model.sav/pw-ff-mac-scheduler.cc:121-150 | the intended table never decreases in the TBS index or in the number of resource blocks |
| SchedConfig.GetRbgSizeAsWritten | ns-allinone-3.35/ns-3.35/src/lte/model.sav/pw-ff-mac-scheduler.cc:677-688 | with the strict comparison, bandwidths 10, 26 and 63 get one more than the standard size, 110 and above get -1, and every other bandwidth below 110 gets the standard size |
| SchedConfig.GetRbgSize | ns-allinone-3.35/ns-3.35/src/lte/model.sav/pw-ff-mac-scheduler.cc:677-688 | with inclusive limits, the RBG size of 3GPP TS 36.213 Table 7.1.6.1-1, -1 outside it |
| SchedConfig.RbgGridFits | ns-allinone-3.35/ns-3.35/src/lte/model.sav/pw-ff-mac-scheduler.cc:81-87 | for every bandwidth from 1 to 110 blocks the RBG size is 1..4, the grid has 1..27 groups and covers no more than the bandwidth |
| SchedConfig.SubbandSize | ns-allinone-3.35/ns-3.35/src/lte/model.sav/pw-ff-mac-scheduler.cc:377-384 | the sub-band size is 0 exactly below 7 resource blocks, and 2 to 4 from 7 on |
| SchedConfig.SubbandSizeMonotone | ns-allinone-3.35/ns-3.35/src/lte/model.sav/pw-ff-mac-scheduler.cc:377-384 | a wider band never has smaller sub-bands, and from 7 to 110 blocks a sub-band is the standard RBG size or one block more |
| SchedConfig.FillTbl | ns-allinone-3.35/ns-3.35/src/lte/model.sav/pw-ff-mac-scheduler.cc:415-439 | dst extended by the slice src[start..start+num], its largest entry, and a minimum that starts from src[start] and is replaced only by a smaller non-zero entry |
| SchedConfig.FillTblNonGbrMinimumIsZero | ns-allinone-3.35/ns-3.35/src/lte/model.sav/pw-ff-mac-scheduler.cc:72-77 | for the non-GBR QCI slice [0, 4, 3, 2, 1] (from start NGBR_QCI_start - 1) the minimum reported is 0 |
| SchedConfig.FillTblNonZeroMin | ns-allinone-3.35/ns-3.35/src/lte/model.sav/pw-ff-mac-scheduler.cc:415-439 | the same extended dst and maximum, with the minimum taken as the smallest non-zero entry (or 0 when all are zero) |
| SchedConfig.FillTblNonZeroMinNonGbr | ns-allinone-3.35/ns-3.35/src/lte/model.sav/pw-ff-mac-scheduler.cc:72-77 | with the intended minimum the non-GBR priorities range over 1..4 |
| SchedConfig.FillRangeQueues | ns-allinone-3.35/ns-3.35/src/lte/model.sav/pw-ff-mac-scheduler.cc:405-413 | min is the uint8_t truncation of the minimum (itself when below 256), max and the queue count are stored, and maxDiff is the uint32_t width max - min + 1: exact below 2^32, zero exactly for the full range 0..2^32-1, and wrapped when min exceeds max + 1 |
| SchedConfig.UlGetQidInRange | ns-allinone-3.35/ns-3.35/src/lte/model.sav/pw-ff-mac-scheduler.cc:3520-3526 | a priority within a range built by FillRangeQueues selects one of the range's queues, and a higher priority never a lower queue |
| SchedConfig.UlGetQIdNew | ns-allinone-3.35/ns-3.35/src/lte/model.sav/pw-ff-mac-scheduler.cc:3533-3538 | the queue is the priority modulo 128, whatever the range |
| SchedConfig.EffSumBounds | ns-allinone-3.35/ns-3.35/src/lte/model.sav/pw-ff-mac-scheduler.cc:394-397 | the sum over n allocation sizes is at least 97 per size and grows with the TBS index |
| SchedConfig.TbSzEffMonotone | ns-allinone-3.35/ns-3.35/src/lte/model.sav/pw-ff-mac-scheduler.cc:392-403 | with the intended table every efficiency is at least 97 and a higher TBS index never has a lower one |
| SchedConfig.EffSumAsWrittenAgrees | ns-allinone-3.35/ns-3.35/src/lte/model.sav/pw-ff-mac-scheduler.cc:392-403 | the sum from the declared table is at least 97 per size, equals the intended sum outside TBS index 6, and is no smaller there when the intended entry is at most 328 |
| SchedConfig.TbSzEffAsWrittenSpec | ns-allinone-3.35/ns-3.35/src/lte/model.sav/pw-ff-mac-scheduler.cc:392-403 | every efficiency CalcEffTbl leaves is at least 97, equals the intended one outside TBS index 6, and is no lower in row 6 |
| SchedConfig.CalcEffTbl | ns-allinone-3.35/ns-3.35/src/lte/model.sav/pw-ff-mac-scheduler.cc:392-403 | every entry 0..26 becomes the efficiency computed from the declared table |
| AmcInit.CreateLteAmc | ns-allinone-3.35/ns-3.35/src/lte/model.sav/lte-amc.cc:260-266 | a new object that reads the stored transport block size table, with its lookup tables filled |
| TbsShape.Tbs | ns-allinone-3.35/ns-3.35/src/lte/model.sav/lte-amc.cc:372-379 | the entry for nprb blocks at a TBS index is between 16 bits per block and the largest entry, 75376 |
| TbsShape.TbsMonotoneInItbs | ns-allinone-3.35/ns-3.35/src/lte/model.sav/lte-amc.cc:145-257 | on the same allocation a higher TBS index never carries fewer bits |
| TbsShape.TbsMonotoneInNprb | ns-allinone-3.35/ns-3.35/src/lte/model.sav/lte-amc.cc:145-257 | at the same TBS index more resource blocks never carry fewer bits |
| TbsTable.TransportBlockSizeTable | ns-allinone-3.35/ns-3.35/src/lte/model.sav/lte-amc.cc:145-257 | the stored table has one row per resource-block count, 1..110 |
| TbsTable.StoredRowsShape | ns-allinone-3.35/ns-3.35/src/lte/model.sav/lte-amc.cc:145-257 | every stored row has 27 entries, non-decreasing in the TBS index, each at least 16 bits per resource block |
| TbsTable.StoredRowsLe | ns-allinone-3.35/ns-3.35/src/lte/model.sav/lte-amc.cc:145-257 | every stored row lies entrywise at or below the next row |
| TbsTable.TransportBlockSizeTableWellShaped | ns-allinone-3.35/ns-3.35/src/lte/model.sav/lte-amc.cc:139-257 | the stored table, with 88 at NPRB 1 and ITBS 6, has every property the size lookups rely on |
| UplinkConfig.GetMin | ns-allinone-3.35/ns-3.35/src/lte/model.sav/up-link-config.h:8 | the smaller argument, the first on a tie |
| UplinkConfig.GetMax | ns-allinone-3.35/ns-3.35/src/lte/model.sav/up-link-config.h:9 | the larger argument, the first on a tie |
| UplinkConfig.CheckAndUpdatePowerCorrection | ns-allinone-3.35/ns-3.35/src/lte/model.sav/up-link-config.h:21-31 | the correction clamped to the PUSCH range, unchanged inside it |
| UplinkConfig.PowerCorrectionIdempotent | ns-allinone-3.35/ns-3.35/src/lte/model.sav/up-link-config.h:21-31 | clamping twice is clamping once |
| UplinkConfig.SmoothBetween | ns-allinone-3.35/ns-3.35/src/lte/model.sav/pw-ff-mac-scheduler.cc:4602-4612 | the smoothed SINR lies between the old average and the scaled sample |
| UlHarq.NewUlUeOk | ns-allinone-3.35/ns-3.35/src/lte/model.sav/pw-ff-mac-scheduler.cc:467-473 | the entries of a new UE are well formed |
| UlHarq.Advanced | ns-allinone-3.35/ns-3.35/src/lte/model.sav/pw-ff-mac-scheduler.cc:868-872 | advancing the process ids keeps the UEs |
| UlHarq.AdvancedNSpec | ns-allinone-3.35/ns-3.35/src/lte/model.sav/pw-ff-mac-scheduler.cc:868-872 | after n TTIs a UE's process id has moved on by n modulo 8 and nothing else of its record changed |
| UlHarq.AdvancedOk | ns-allinone-3.35/ns-3.35/src/lte/model.sav/pw-ff-mac-scheduler.cc:868-872 | advancing the process ids keeps the records well formed |
| UlHarq.RetxProcess | ns-allinone-3.35/ns-3.35/src/lte/model.sav/pw-ff-mac-scheduler.cc:2018 | the process HARQ_PERIOD TTIs back, modulo 8, never negative |
| UlHarq.Step | ns-allinone-3.35/ns-3.35/src/lte/model.sav/pw-ff-mac-scheduler.cc:2001-2134 | one feedback entry keeps the pass well formed, the RB map's length and the UEs |
| UlHarq.PassFrom | ns-allinone-3.35/ns-3.35/src/lte/model.sav/pw-ff-mac-scheduler.cc:1999-2136 | the whole loop keeps the pass well formed, the RB map's length and the UEs |
| UlHarq.StepSpec | ns-allinone-3.35/ns-3.35/src/lte/model.sav/pw-ff-mac-scheduler.cc:2002-2128 | a drop or a skip emits nothing and leaves the RB map and the records; a retransmission claims exactly its DCI's free RBs, is sent with ndi 0, uses a slot, and moves the counter to the current process as old+1 with the old process freed |
| UlHarq.StepAck | ns-allinone-3.35/ns-3.35/src/lte/model.sav/pw-ff-mac-scheduler.cc:2129-2134 | an acknowledgement only calls the CRC-success step |
| UlHarq.GrowsTrans | ns-allinone-3.35/ns-3.35/src/lte/model.sav/pw-ff-mac-scheduler.cc:1999-2136 | growing twice is growing |
| UlHarq.PassGrows | ns-allinone-3.35/ns-3.35/src/lte/model.sav/pw-ff-mac-scheduler.cc:1999-2136 | over the pass no used RB is taken again or relabelled, DCIs are only appended, one per scheduling slot used |
| UlHarq.OwnedSame | ns-allinone-3.35/ns-3.35/src/lte/model.sav/pw-ff-mac-scheduler.cc:2059-2077 | ownership depends only on the DCIs and the RB map |
| UlHarq.PassDisjoint | ns-allinone-3.35/ns-3.35/src/lte/model.sav/pw-ff-mac-scheduler.cc:2059-2110 | two retransmissions of one pass never share an RB, and the RB map keeps what they marked |
| UlHarq.UlHarqProcesses.constructor | ns-allinone-3.35/ns-3.35/src/lte/model.sav/pw-ff-mac-scheduler.cc:191-210 | no UE entries |
| UlHarq.UlHarqProcesses.ConfigureUe | ns-allinone-3.35/ns-3.35/src/lte/model.sav/pw-ff-mac-scheduler.cc:448-478 | a new RNTI gets idle processes starting at process 0; a known RNTI keeps its entries |
| UlHarq.UlHarqProcesses.ReleaseUe | ns-allinone-3.35/ns-3.35/src/lte/model.sav/pw-ff-mac-scheduler.cc:605-607 | the RNTI's entries are erased |
| UlHarq.UlHarqProcesses.AdvanceProcessIds | ns-allinone-3.35/ns-3.35/src/lte/model.sav/pw-ff-mac-scheduler.cc:868-872 | every UE's process id moves on by one modulo 8 |
| UlHarq.UlHarqProcesses.StoreDci | ns-allinone-3.35/ns-3.35/src/lte/model.sav/pw-ff-mac-scheduler.cc:2578-2583 | the DCI is kept in the UE's current process and nothing else changes |
| UlHarq.UlHarqProcesses.ProcessUlHarq | ns-allinone-3.35/ns-3.35/src/lte/model.sav/pw-ff-mac-scheduler.cc:1996-2136 | with HARQ on the records become those of the pass over the feedback list; with HARQ off nothing changes |
| UlPowerControl.UlPowerControl.constructor | ns-allinone-3.35/ns-3.35/src/lte/model.sav/pw-ff-mac-scheduler.cc:191-210 | no UE records and the TTI counter at zero |
| UlPowerControl.UlPowerControl.NextTti | ns-allinone-3.35/ns-3.35/src/lte/model.sav/pw-ff-mac-scheduler.cc:1932-1940 | the uplink trigger advances the TTI counter and leaves the records |
| UlPowerControl.UlPowerControl.CfgUe | ns-allinone-3.35/ns-3.35/src/lte/model.sav/pw-ff-mac-scheduler.cc:4167-4247 | a known UE keeps its record; a new one gets the as-written configured record stamped with the current TTI |
| UlPowerControl.UlPowerControl.HarqCrcFail | ns-allinone-3.35/ns-3.35/src/lte/model.sav/pw-ff-mac-scheduler.cc:1883-1901 | only the UE's record changes, as the CRC-failure step says |
| UlPowerControl.UlPowerControl.HarqCrcOk | ns-allinone-3.35/ns-3.35/src/lte/model.sav/pw-ff-mac-scheduler.cc:1904-1920 | only the UE's record changes, as the CRC-success step capped at its highest CQI's index says |
| UlPowerControl.UlPowerControl.PwrUpdPhr | ns-allinone-3.35/ns-3.35/src/lte/model.sav/pw-ff-mac-scheduler.cc:3206-3222 | only the UE's record changes, as the headroom update says |
| UlPowerControl.UlPowerControl.GetMaxRbs | ns-allinone-3.35/ns-3.35/src/lte/model.sav/pw-ff-mac-scheduler.cc:4418-4445 | the grant limit lies in [MIN_MAX_RBS, bandwidth-2]; the UE's record takes the TPC command chosen on the way |
| UlPowerControl.UlPowerControl.SpectralEfficiencyCqi | ns-allinone-3.35/ns-3.35/src/lte/model.sav/pw-ff-mac-scheduler.cc:4492-4542 | only the UE's record changes, as the CQI-based link adaptation says |
| UlPowerControl.UlPowerControl.SpectralEfficiencySinr | ns-allinone-3.35/ns-3.35/src/lte/model.sav/pw-ff-mac-scheduler.cc:4596-4649 | only the UE's record changes, as the SINR-based link adaptation says |
| UlPowerControl.UlPowerControl.DciPowerUpdate | ns-allinone-3.35/ns-3.35/src/lte/model.sav/pw-ff-mac-scheduler.cc:1653-1681 | only the UE's record changes, as the DCI power bookkeeping says |

## Left out

- Amc.GetDlTbSizeFromMcs: requires 1 ≤ nprb. The source asserts only nprb < 111 and then reads row nprb − 1, so at nprb 0 it reads before the table; that read is not modelled.
- Amc.GetUlTbSizeFromItbs: requires 1 ≤ nprb for the same reason. Row −1 of the table is not modelled.
- Amc.GetUlTbSizeFromMcs: requires 1 ≤ nprb for the same reason. Row −1 of the table is not modelled.
- Power.SpectralEfficiencyCqi: requires the headroom-adjusted CQI and the UE's maximum uplink CQI to lie in 0..15. The source indexes its 16-entry CQI tables with them unchecked, so a read outside them is not modelled.
- Power.SpectralEfficiencySinr: requires the effective SINR index to lie inside `UlSinrToItbsTbl`. A read past its 255 entries is not modelled. At index 254 it reads the intended entry 26, not the declared 0 (see Power.ItbsForSinr).
- UlPowerControl.UlPowerControl.SpectralEfficiencyCqi: carries the same range requirement as Power.SpectralEfficiencyCqi.
- UlPowerControl.UlPowerControl.SpectralEfficiencySinr: carries the same range requirement as Power.SpectralEfficiencySinr.
- Power.GetPwrGetMaxRb: takes no TTI-bundling `offsetDB`. Both call sites modelled, the non-UE_EFF branch of `GetUeAvailPwr` and `GetMaxRbs`, pass 0. The one call that passes `m_ttiBundlingOffsetDB` lies in the UE_EFF branch, and so does its possible read past the 21 entries of `PwrToRbTbl`.
- PfsUplink.UplinkPfs.SchedUeForDat: computes the resource-block request with the exact Pfs.PrbRequest. The source forms `effBsr*1024*8` in 32 bits. The wrap is modelled and exhibited by Pfs.PrbRequestAsWritten, but it is not composed into `GetNumSbs` here.
- PfsUplink.GrantEntry: uses the same exact request in `UlRbAlloc`, not the 32-bit Pfs.PrbRequestAsWritten.
- Power.ItbsForSinr: reads the intended `UlSinrToItbsTbl`. An effective SINR index of 254 therefore gives TBS index 26 before the caps, where the declared table gives 0. The declared table is exhibited by SchedTables.UlSinrToItbsTblAsWrittenDrops.
- PfsUplink.UplinkPfs.UlRbAlloc: grants each entry through PfsSelect.RbStep, so it uses the intended PfsSelect.Nprb and the exact Pfs.PrbRequest.
- PfsSelect.RbStep: uses the intended PfsSelect.Nprb. That count grants zero PRBs only when the share or the power cap allows none, and then it grants zero bytes. The source reads the TBS at 0 RBs in that case; that read is not modelled. The as-written count, which reaches zero in other cases too, is exhibited by PfsSelect.UlRbAllocAsWrittenZeroPrb.
- PfsLists.SortAndInsertUeLstSbShare: requires that no listed UE has a request of 0. For such an entry the source inserts and keeps iterating over an invalidated iterator, and what follows is undefined.
- `PfsRmvUeFromQueue` erases inside its loop. It is modelled as the removal it evidently performs (PfsLists.RemoveFromQueue), not as iterator invalidation.
- SchedConfig.TbSzEffAsWrittenSpec: states the efficiencies `CalcEffTbl` builds from the table as written. Monotonicity in the TBS index is proved only for the intended table.
- Rach.RachGrants: requires every estimated size to be at least 1. The `NS_ASSERT` that the default MCS can carry each RACH message is not modelled, and neither is the zero-size path. The grants are computed on sequences and maps rather than on the scheduler's vectors in place.
- Rach.RachAllocation: carries the same estimated-size requirement. It requires, as the source's fatal error does, that each requesting RNTI has an uplink HARQ entry when HARQ is on.
- Rach.GrantShortest: requires the uplink TBS at 110 RBs to fit in the 16-bit `tbSizeBits`.
- DlPfPass.DciStage: computes each RNTI's step from the state at the start of the stage. This is sound because each step touches only that RNTI's own entries.
- The outer new-data loop of `DoSchedUlTriggerReq` is modelled only through its parts: the HARQ pass, the PFS selection, the sub-band share, `UlRbAlloc` and the DCI store. Its walk over `UeLst` with `FinalizeUlOnAlloc` is not modelled, because it dereferences the list's end.
- The new-data loop's `m_nextRntiUl` round-robin position is not modelled.
- `m_ceBsrRxed` is never filled in this file. UlBsr models the map and its updates as the file changes it.
- A downlink retransmission is rebuffered and then still emitted in the same TTI. The feedback pass models this as written.
- I/O, `NS_LOG` and `std::cout` tracing, `Simulator::Now` and `ReportUlSchedulerStat` file output are left out. They have no effect on the scheduler's state.
- The SAP calls to the MAC and the FFR provider queries are left out. The RBG and RB availability are input bitmaps or predicates.
- `Is64Qam` draws from `random()`. It is taken as a Boolean parameter.
- `EstimateUlSinr`, the `fpS11dot3toDouble` conversion, `MCS_eff` and the UE_EFF branch of `GetUeAvailPwr` are floating point and left out.
- `CreateCqiFeedbacks`, `GetCqiFromUlSinr`, `GetMcsFromUlSinr` and `GetMcsFromSinr` are floating point, or call a foreign error model, and are left out.
- The `log10` in `SetTargetCqi` is left out. Its truncated value is a parameter, and only the integer path-loss thresholds are modelled.
- The proportional-fair throughput averages and `rcqi` are modelled over `real`, with no claim of IEEE-754 equality.
- `updItbsUlcqi` runs on every SRS and PUSCH CQI report. It is left out because it takes a `double` minimum of the stored SINRs and calls `EstimateUlSinr`, both floating point. Its result, the new TBS index, is a parameter of PfsUplink.UplinkPfs.UlCqiPrioUpd. `MaxThroughput`, its `UE_EFF` branch, is left out with it.
- PfsUplink.UplinkPfs.UlCqiPrioUpd: models the SRS path. That path requeues a UE only when a buffer report is stored for it. The PUSCH path makes the same priority update but requeues without that check, reading the stored report of a UE that may have none. That update is not composed into CqiAgeing.CqiReports.UlPuschCqi, and the SRS one is not composed into CqiAgeing.CqiReports.UlSrsCqi.
- Pfs.PfsUpdFracPrioInfo: the sum of the achieved bytes and `bytes` is not wrapped at 32 bits. The fields' types are declared in `pw-ff-mac-scheduler.h`, which is not part of this model.
- The `int8_t` headroom values are modelled as unbounded integers, and their 8-bit wrap is not modelled. These are SetTpc's `availPwr` and `delta`, GetUeAvailPwr's `availPwr`, the DCI power update's `tempDelta`, and PwrUpdPhr's `phr`.
- `DoSchedUlNoiseInterferenceReq` and `DoSchedUlSrInfoReq`, which do nothing, are left out.
- The `success` / `miss` counters and the BLER computation are left out. They only gather statistics.

## Findings

| source | as written | input that shows it | evidently intended | confidence | as-written member | corrected member |
|---|---|---|---|---|---|---|
| ns-allinone-3.35/ns-3.35/src/lte/model.sav/pw-ff-mac-scheduler.cc:677-688 | `GetRbgSize` compares the bandwidth with `<` against 10, 26, 63 and 110 | bandwidth 10 gives RBG size 2 and bandwidth 110 gives -1 | TS 36.213 Table 7.1.6.1-1: size 1 up to 10 RBs, 2 up to 26, 3 up to 63, 4 up to 110 | not executed | SchedConfig.GetRbgSizeAsWritten | SchedConfig.GetRbgSize |
| ns-allinone-3.35/ns-3.35/src/lte/model.sav/pw-ff-mac-scheduler.cc:107-119 | `UlSinrToItbsTbl[255]` has only 254 initialisers, so its last entry is 0 | SINR index 254 maps to TBS index 0 after 26 at index 253 | a non-decreasing table whose last entry stays at 26 | not executed | SchedTables.UlSinrToItbsTblAsWrittenDrops | SchedTables.UlSinrToItbsTblNonDecreasing |
| ns-allinone-3.35/ns-3.35/src/lte/model.sav/pw-ff-mac-scheduler.cc:128 | the scheduler's own `TbSzTbl` keeps 328 at TBS index 6, one RB | 328 bits at (6, 1) against 104 at (7, 1) | 88, as the AMC table uses, so the table grows with the TBS index | not executed | AmcInit.SchedTbSizeAsWrittenFalls | SchedTables.SchedTbSizeMonotone |
| ns-allinone-3.35/ns-3.35/src/lte/model.sav/pw-ff-mac-scheduler.cc:415-439 | `FillTbl` skips zero values when taking the minimum but starts from the first value | the non-GBR priorities 0, 4, 3, 2, 1 give minimum 0 | minimum 1 over the non-zero values | not executed | SchedConfig.FillTblNonGbrMinimumIsZero | SchedConfig.FillTblNonZeroMinNonGbr |
| ns-allinone-3.35/ns-3.35/src/lte/model.sav/pw-ff-mac-scheduler.cc:4111-4120 | the headroom branch of `SetTpc` is overwritten at once by the remaining-power branch | PHR 40, remaining PUSCH power -2, TTI 4, available power 5: TPC 0 | TPC 1, no correction, while the headroom is large | not executed | Power.SetTpcAsWrittenIgnoresHeadroom | Power.SetTpcAgrees |
| ns-allinone-3.35/ns-3.35/src/lte/model.sav/pw-ff-mac-scheduler.cc:4167-4247 | `cfgUe` stores the RAR TBS index in `avgItbs` unscaled, though it is kept in hundredths | RAR TBS index 5 is stored as 5, so `UlGetItbs` reads 0 | 500, so that `avgItbs + delta_itbs` is 100 times the index | not executed | Power.CfgUeAsWritten | Power.CfgUe |
| ns-allinone-3.35/ns-3.35/src/lte/model.sav/pw-ff-mac-scheduler.cc:3984-3990 | `size - rlcOverhead` in `UpdateDlRlcBufferInfo` is formed in `uint32_t` and wraps | a 1-byte PDU on LC 3 empties a 1000-byte transmission queue | subtract nothing below the overhead; one PDU drains at most its own bytes | not executed | DlRlc.DrainAsWrittenTakesTooMuch | DlRlc.DrainBounded |
| ns-allinone-3.35/ns-3.35/src/lte/model.sav/pw-ff-mac-scheduler.cc:2848-2853 | `DisributeSbs` subtracts each share from the unsigned sub-band count, which wraps | three UEs of priority 1 asking 5 each with 2 available get 1, 5 and 5 | shares that add up to at most the available sub-bands | not executed | PfsSelect.DisributeSbsAsWrittenOverAllocates | PfsSelect.SharesWithinAvailable |
| ns-allinone-3.35/ns-3.35/src/lte/model.sav/pw-ff-mac-scheduler.cc:2768-2778 | `UlRbAlloc` rounds the PRB count down and reads the TBS of that count | 1 buffered byte at efficiency 97 and 144 RE per RB gives 0 PRBs and a TBS read at 0 RBs | at least one PRB whenever bytes are buffered | not executed | PfsSelect.UlRbAllocAsWrittenZeroPrb | PfsSelect.Nprb |
| ns-allinone-3.35/ns-3.35/src/lte/model.sav/pw-ff-mac-scheduler.cc:3050 | `effBsr*1024*8` is formed in `uint32_t` | 0x80000 buffered bytes at efficiency 97 and 144 RE per RB ask for 0 RBs, 0x7FFFF for a positive number | the exact product, so a larger buffer never asks for fewer RBs | not executed | Pfs.PrbRequestAsWrittenWraps | Pfs.PrbRequest |
