/**
 * The transport block size table of 3GPP TS 36.213 Table 7.1.7.2.1-1 as the
 * AMC module stores it, and the proof that it is well shaped: every row
 * grows with the TBS index, every column grows with the number of resource
 * blocks, and every entry is at least 16 bits per resource block.
 * The single entry NPRB = 1, ITBS = 6 holds 88 rather than the standard's 328.
 */
module TbsTable {
  import opened TbsShape

  const TbsNprb001: seq<int> := [16, 24, 32, 40, 56, 72, 88, 104, 120, 136, 144, 176, 208, 224, 256, 280, 328, 336, 376, 408, 440, 488, 520, 552, 584, 616, 712]
  const TbsNprb002: seq<int> := [32, 56, 72, 104, 120, 144, 176, 224, 256, 296, 328, 376, 440, 488, 552, 600, 632, 696, 776, 840, 904, 1000, 1064, 1128, 1192, 1256, 1480]
  const TbsNprb003: seq<int> := [56, 88, 144, 176, 208, 224, 256, 328, 392, 456, 504, 584, 680, 744, 840, 904, 968, 1064, 1160, 1288, 1384, 1480, 1608, 1736, 1800, 1864, 2216]
  const TbsNprb004: seq<int> := [88, 144, 176, 208, 256, 328, 392, 472, 536, 616, 680, 776, 904, 1000, 1128, 1224, 1288, 1416, 1544, 1736, 1864, 1992, 2152, 2280, 2408, 2536, 2984]
  const TbsNprb005: seq<int> := [120, 176, 208, 256, 328, 424, 504, 584, 680, 776, 872, 1000, 1128, 1256, 1416, 1544, 1608, 1800, 1992, 2152, 2344, 2472, 2664, 2856, 2984, 3112, 3752]
  const TbsNprb006: seq<int> := [152, 208, 256, 328, 408, 504, 600, 712, 808, 936, 1032, 1192, 1352, 1544, 1736, 1800, 1928, 2152, 2344, 2600, 2792, 2984, 3240, 3496, 3624, 3752, 4392]
  const TbsNprb007: seq<int> := [176, 224, 296, 392, 488, 600, 712, 840, 968, 1096, 1224, 1384, 1608, 1800, 1992, 2152, 2280, 2536, 2792, 2984, 3240, 3496, 3752, 4008, 4264, 4392, 5160]
  const TbsNprb008: seq<int> := [208, 256, 328, 440, 552, 680, 808, 968, 1096, 1256, 1384, 1608, 1800, 2024, 2280, 2472, 2600, 2856, 3112, 3496, 3752, 4008, 4264, 4584, 4968, 5160, 5992]
  const TbsNprb009: seq<int> := [224, 328, 376, 504, 632, 776, 936, 1096, 1256, 1416, 1544, 1800, 2024, 2280, 2600, 2728, 2984, 3240, 3624, 3880, 4136, 4584, 4776, 5160, 5544, 5736, 6712]
  const TbsNprb010: seq<int> := [256, 344, 424, 568, 696, 872, 1032, 1224, 1384, 1544, 1736, 2024, 2280, 2536, 2856, 3112, 3240, 3624, 4008, 4264, 4584, 4968, 5352, 5736, 5992, 6200, 7480]
  const TbsNprb011: seq<int> := [288, 376, 472, 616, 776, 968, 1128, 1320, 1544, 1736, 1928, 2216, 2472, 2856, 3112, 3368, 3624, 4008, 4392, 4776, 5160, 5544, 5992, 6200, 6712, 6968, 8248]
  const TbsNprb012: seq<int> := [328, 424, 520, 680, 840, 1032, 1224, 1480, 1672, 1864, 2088, 2408, 2728, 3112, 3496, 3624, 3880, 4392, 4776, 5160, 5544, 5992, 6456, 6968, 7224, 7480, 8760]
  const TbsNprb013: seq<int> := [344, 456, 568, 744, 904, 1128, 1352, 1608, 1800, 2024, 2280, 2600, 2984, 3368, 3752, 4008, 4264, 4776, 5160, 5544, 5992, 6456, 6968, 7480, 7992, 8248, 9528]
  const TbsNprb014: seq<int> := [376, 488, 616, 808, 1000, 1224, 1480, 1672, 1928, 2216, 2472, 2792, 3240, 3624, 4008, 4264, 4584, 5160, 5544, 5992, 6456, 6968, 7480, 7992, 8504, 8760, 10296]
  const TbsNprb015: seq<int> := [392, 520, 648, 872, 1064, 1320, 1544, 1800, 2088, 2344, 2664, 2984, 3368, 3880, 4264, 4584, 4968, 5352, 5992, 6456, 6968, 7480, 7992, 8504, 9144, 9528, 11064]
  const TbsNprb016: seq<int> := [424, 568, 696, 904, 1128, 1384, 1672, 1928, 2216, 2536, 2792, 3240, 3624, 4136, 4584, 4968, 5160, 5736, 6200, 6968, 7480, 7992, 8504, 9144, 9912, 10296, 11832]
  const TbsNprb017: seq<int> := [456, 600, 744, 968, 1192, 1480, 1736, 2088, 2344, 2664, 2984, 3496, 3880, 4392, 4968, 5160, 5544, 6200, 6712, 7224, 7992, 8504, 9144, 9912, 10296, 10680, 12576]
  const TbsNprb018: seq<int> := [488, 632, 776, 1032, 1288, 1544, 1864, 2216, 2536, 2856, 3112, 3624, 4136, 4584, 5160, 5544, 5992, 6456, 7224, 7736, 8248, 9144, 9528, 10296, 11064, 11448, 13536]
  const TbsNprb019: seq<int> := [504, 680, 840, 1096, 1352, 1672, 1992, 2344, 2664, 2984, 3368, 3880, 4392, 4968, 5544, 5736, 6200, 6712, 7480, 8248, 8760, 9528, 10296, 11064, 11448, 12216, 14112]
  const TbsNprb020: seq<int> := [536, 712, 872, 1160, 1416, 1736, 2088, 2472, 2792, 3112, 3496, 4008, 4584, 5160, 5736, 6200, 6456, 7224, 7992, 8504, 9144, 9912, 10680, 11448, 12216, 12576, 14688]
  const TbsNprb021: seq<int> := [568, 744, 936, 1224, 1480, 1864, 2216, 2536, 2984, 3368, 3752, 4264, 4776, 5352, 5992, 6456, 6712, 7480, 8248, 9144, 9912, 10680, 11448, 12216, 12960, 13536, 15264]
  const TbsNprb022: seq<int> := [600, 776, 968, 1256, 1544, 1928, 2280, 2664, 3112, 3496, 3880, 4392, 4968, 5736, 6200, 6712, 7224, 7992, 8760, 9528, 10296, 11064, 11832, 12576, 13536, 14112, 16416]
  const TbsNprb023: seq<int> := [616, 808, 1000, 1320, 1608, 2024, 2408, 2792, 3240, 3624, 4008, 4584, 5352, 5992, 6456, 6968, 7480, 8248, 9144, 9912, 10680, 11448, 12576, 12960, 14112, 14688, 16992]
  const TbsNprb024: seq<int> := [648, 872, 1064, 1384, 1736, 2088, 2472, 2984, 3368, 3752, 4264, 4776, 5544, 6200, 6968, 7224, 7736, 8760, 9528, 10296, 11064, 12216, 12960, 13536, 14688, 15264, 17568]
  const TbsNprb025: seq<int> := [680, 904, 1096, 1416, 1800, 2216, 2600, 3112, 3496, 4008, 4392, 4968, 5736, 6456, 7224, 7736, 7992, 9144, 9912, 10680, 11448, 12576, 13536, 14112, 15264, 15840, 18336]
  const TbsNprb026: seq<int> := [712, 936, 1160, 1480, 1864, 2280, 2728, 3240, 3624, 4136, 4584, 5352, 5992, 6712, 7480, 7992, 8504, 9528, 10296, 11064, 12216, 12960, 14112, 14688, 15840, 16416, 19080]
  const TbsNprb027: seq<int> := [744, 968, 1192, 1544, 1928, 2344, 2792, 3368, 3752, 4264, 4776, 5544, 6200, 6968, 7736, 8248, 8760, 9912, 10680, 11448, 12576, 13536, 14688, 15264, 16416, 16992, 19848]
  const TbsNprb028: seq<int> := [776, 1000, 1256, 1608, 1992, 2472, 2984, 3368, 3880, 4392, 4968, 5736, 6456, 7224, 7992, 8504, 9144, 10296, 11064, 12216, 12960, 14112, 15264, 15840, 16992, 17568, 20616]
  const TbsNprb029: seq<int> := [776, 1032, 1288, 1672, 2088, 2536, 2984, 3496, 4008, 4584, 5160, 5992, 6712, 7480, 8248, 8760, 9528, 10296, 11448, 12576, 13536, 14688, 15840, 16416, 17568, 18336, 21384]
  const TbsNprb030: seq<int> := [808, 1064, 1320, 1736, 2152, 2664, 3112, 3624, 4264, 4776, 5352, 5992, 6712, 7736, 8504, 9144, 9912, 10680, 11832, 12960, 14112, 15264, 16416, 16992, 18336, 19080, 22152]
  const TbsNprb031: seq<int> := [840, 1128, 1384, 1800, 2216, 2728, 3240, 3752, 4392, 4968, 5544, 6200, 6968, 7992, 8760, 9528, 9912, 11064, 12216, 13536, 14688, 15840, 16992, 17568, 19080, 19848, 22920]
  const TbsNprb032: seq<int> := [872, 1160, 1416, 1864, 2280, 2792, 3368, 3880, 4584, 5160, 5736, 6456, 7224, 8248, 9144, 9912, 10296, 11448, 12576, 13536, 14688, 15840, 16992, 18336, 19848, 20616, 23688]
  const TbsNprb033: seq<int> := [904, 1192, 1480, 1928, 2344, 2856, 3496, 4008, 4584, 5160, 5736, 6712, 7480, 8504, 9528, 10296, 10680, 11832, 12960, 14112, 15264, 16416, 17568, 19080, 19848, 20616, 24496]
  const TbsNprb034: seq<int> := [936, 1224, 1544, 1992, 2408, 2984, 3496, 4136, 4776, 5352, 5992, 6968, 7736, 8760, 9912, 10296, 11064, 12216, 13536, 14688, 15840, 16992, 18336, 19848, 20616, 21384, 25456]
  const TbsNprb035: seq<int> := [968, 1256, 1544, 2024, 2472, 3112, 3624, 4264, 4968, 5544, 6200, 6968, 7992, 9144, 9912, 10680, 11448, 12576, 14112, 15264, 16416, 17568, 19080, 19848, 21384, 22152, 25456]
  const TbsNprb036: seq<int> := [1000, 1288, 1608, 2088, 2600, 3112, 3752, 4392, 4968, 5736, 6200, 7224, 8248, 9144, 10296, 11064, 11832, 12960, 14112, 15264, 16992, 18336, 19080, 20616, 22152, 22920, 26416]
  const TbsNprb037: seq<int> := [1032, 1352, 1672, 2152, 2664, 3240, 3880, 4584, 5160, 5736, 6456, 7480, 8504, 9528, 10680, 11448, 12216, 13536, 14688, 15840, 16992, 18336, 19848, 21384, 22920, 23688, 27376]
  const TbsNprb038: seq<int> := [1032, 1384, 1672, 2216, 2728, 3368, 4008, 4584, 5352, 5992, 6712, 7736, 8760, 9912, 11064, 11832, 12216, 13536, 15264, 16416, 17568, 19080, 20616, 22152, 22920, 24496, 28336]
  const TbsNprb039: seq<int> := [1064, 1416, 1736, 2280, 2792, 3496, 4136, 4776, 5544, 6200, 6712, 7736, 8760, 9912, 11064, 11832, 12576, 14112, 15264, 16992, 18336, 19848, 21384, 22152, 23688, 24496, 29296]
  const TbsNprb040: seq<int> := [1096, 1416, 1800, 2344, 2856, 3496, 4136, 4968, 5544, 6200, 6968, 7992, 9144, 10296, 11448, 12216, 12960, 14688, 15840, 16992, 18336, 19848, 21384, 22920, 24496, 25456, 29296]
  const TbsNprb041: seq<int> := [1128, 1480, 1800, 2408, 2984, 3624, 4264, 4968, 5736, 6456, 7224, 8248, 9528, 10680, 11832, 12576, 13536, 14688, 16416, 17568, 19080, 20616, 22152, 23688, 25456, 26416, 30576]
  const TbsNprb042: seq<int> := [1160, 1544, 1864, 2472, 2984, 3752, 4392, 5160, 5992, 6712, 7480, 8504, 9528, 10680, 12216, 12960, 13536, 15264, 16416, 18336, 19848, 21384, 22920, 24496, 25456, 26416, 30576]
  const TbsNprb043: seq<int> := [1192, 1544, 1928, 2536, 3112, 3752, 4584, 5352, 5992, 6712, 7480, 8760, 9912, 11064, 12216, 12960, 14112, 15264, 16992, 18336, 19848, 21384, 22920, 24496, 26416, 27376, 31704]
  const TbsNprb044: seq<int> := [1224, 1608, 1992, 2536, 3112, 3880, 4584, 5352, 6200, 6968, 7736, 8760, 9912, 11448, 12576, 13536, 14112, 15840, 17568, 19080, 20616, 22152, 23688, 25456, 26416, 28336, 32856]
  const TbsNprb045: seq<int> := [1256, 1608, 2024, 2600, 3240, 4008, 4776, 5544, 6200, 6968, 7992, 9144, 10296, 11448, 12960, 13536, 14688, 16416, 17568, 19080, 20616, 22920, 24496, 25456, 27376, 28336, 32856]
  const TbsNprb046: seq<int> := [1256, 1672, 2088, 2664, 3240, 4008, 4776, 5736, 6456, 7224, 7992, 9144, 10680, 11832, 12960, 14112, 14688, 16416, 18336, 19848, 21384, 22920, 24496, 26416, 28336, 29296, 34008]
  const TbsNprb047: seq<int> := [1288, 1736, 2088, 2728, 3368, 4136, 4968, 5736, 6456, 7480, 8248, 9528, 10680, 12216, 13536, 14688, 15264, 16992, 18336, 20616, 22152, 23688, 25456, 27376, 28336, 29296, 35160]
  const TbsNprb048: seq<int> := [1320, 1736, 2152, 2792, 3496, 4264, 4968, 5992, 6712, 7480, 8504, 9528, 11064, 12216, 13536, 14688, 15840, 17568, 19080, 20616, 22152, 24496, 25456, 27376, 29296, 30576, 35160]
  const TbsNprb049: seq<int> := [1352, 1800, 2216, 2856, 3496, 4392, 5160, 5992, 6968, 7736, 8504, 9912, 11064, 12576, 14112, 15264, 15840, 17568, 19080, 21384, 22920, 24496, 26416, 28336, 29296, 31704, 36696]
  const TbsNprb050: seq<int> := [1384, 1800, 2216, 2856, 3624, 4392, 5160, 6200, 6968, 7992, 8760, 9912, 11448, 12960, 14112, 15264, 16416, 18336, 19848, 21384, 22920, 25456, 27376, 28336, 30576, 31704, 36696]
  const TbsNprb051: seq<int> := [1416, 1864, 2280, 2984, 3624, 4584, 5352, 6200, 7224, 7992, 9144, 10296, 11832, 12960, 14688, 15840, 16416, 18336, 19848, 22152, 23688, 25456, 27376, 29296, 31704, 32856, 37888]
  const TbsNprb052: seq<int> := [1416, 1864, 2344, 2984, 3752, 4584, 5352, 6456, 7224, 8248, 9144, 10680, 11832, 13536, 14688, 15840, 16992, 19080, 20616, 22152, 24496, 26416, 28336, 29296, 31704, 32856, 37888]
  const TbsNprb053: seq<int> := [1480, 1928, 2344, 3112, 3752, 4776, 5544, 6456, 7480, 8248, 9144, 10680, 12216, 13536, 15264, 16416, 16992, 19080, 21384, 22920, 24496, 26416, 28336, 30576, 32856, 34008, 39232]
  const TbsNprb054: seq<int> := [1480, 1992, 2408, 3112, 3880, 4776, 5736, 6712, 7480, 8504, 9528, 11064, 12216, 14112, 15264, 16416, 17568, 19848, 21384, 22920, 25456, 27376, 29296, 30576, 32856, 34008, 40576]
  const TbsNprb055: seq<int> := [1544, 1992, 2472, 3240, 4008, 4776, 5736, 6712, 7736, 8760, 9528, 11064, 12576, 14112, 15840, 16992, 17568, 19848, 22152, 23688, 25456, 27376, 29296, 31704, 34008, 35160, 40576]
  const TbsNprb056: seq<int> := [1544, 2024, 2536, 3240, 4008, 4968, 5992, 6712, 7736, 8760, 9912, 11448, 12576, 14688, 15840, 16992, 18336, 20616, 22152, 24496, 26416, 28336, 30576, 31704, 34008, 35160, 40576]
  const TbsNprb057: seq<int> := [1608, 2088, 2536, 3368, 4136, 4968, 5992, 6968, 7992, 9144, 9912, 11448, 12960, 14688, 16416, 17568, 18336, 20616, 22920, 24496, 26416, 28336, 30576, 32856, 35160, 36696, 42368]
  const TbsNprb058: seq<int> := [1608, 2088, 2600, 3368, 4136, 5160, 5992, 6968, 7992, 9144, 10296, 11832, 12960, 14688, 16416, 17568, 19080, 20616, 22920, 25456, 27376, 29296, 31704, 32856, 35160, 36696, 42368]
  const TbsNprb059: seq<int> := [1608, 2152, 2664, 3496, 4264, 5160, 6200, 7224, 8248, 9144, 10296, 11832, 13536, 15264, 16992, 18336, 19080, 21384, 23688, 25456, 27376, 29296, 31704, 34008, 36696, 37888, 43816]
  const TbsNprb060: seq<int> := [1672, 2152, 2664, 3496, 4264, 5352, 6200, 7224, 8504, 9528, 10680, 12216, 13536, 15264, 16992, 18336, 19848, 21384, 23688, 25456, 28336, 30576, 32856, 34008, 36696, 37888, 43816]
  const TbsNprb061: seq<int> := [1672, 2216, 2728, 3624, 4392, 5352, 6456, 7480, 8504, 9528, 10680, 12216, 14112, 15840, 17568, 18336, 19848, 22152, 24496, 26416, 28336, 30576, 32856, 35160, 36696, 39232, 45352]
  const TbsNprb062: seq<int> := [1736, 2280, 2792, 3624, 4392, 5544, 6456, 7480, 8760, 9912, 11064, 12576, 14112, 15840, 17568, 19080, 19848, 22152, 24496, 26416, 29296, 31704, 34008, 35160, 37888, 39232, 45352]
  const TbsNprb063: seq<int> := [1736, 2280, 2856, 3624, 4584, 5544, 6456, 7736, 8760, 9912, 11064, 12576, 14112, 16416, 18336, 19080, 20616, 22920, 24496, 27376, 29296, 31704, 34008, 36696, 37888, 40576, 46888]
  const TbsNprb064: seq<int> := [1800, 2344, 2856, 3752, 4584, 5736, 6712, 7736, 9144, 10296, 11448, 12960, 14688, 16416, 18336, 19848, 20616, 22920, 25456, 27376, 29296, 31704, 34008, 36696, 39232, 40576, 46888]
  const TbsNprb065: seq<int> := [1800, 2344, 2856, 3752, 4584, 5736, 6712, 7992, 9144, 10296, 11448, 12960, 14688, 16992, 18336, 19848, 21384, 23688, 25456, 28336, 30576, 32856, 35160, 37888, 39232, 40576, 48936]
  const TbsNprb066: seq<int> := [1800, 2408, 2984, 3880, 4776, 5736, 6968, 7992, 9144, 10296, 11448, 13536, 15264, 16992, 19080, 20616, 21384, 23688, 26416, 28336, 30576, 32856, 35160, 37888, 40576, 42368, 48936]
  const TbsNprb067: seq<int> := [1864, 2472, 2984, 3880, 4776, 5992, 6968, 8248, 9528, 10680, 11832, 13536, 15264, 16992, 19080, 20616, 22152, 24496, 26416, 29296, 31704, 34008, 36696, 37888, 40576, 42368, 48936]
  const TbsNprb068: seq<int> := [1864, 2472, 3112, 4008, 4968, 5992, 6968, 8248, 9528, 10680, 11832, 13536, 15264, 17568, 19848, 20616, 22152, 24496, 27376, 29296, 31704, 34008, 36696, 39232, 42368, 43816, 51024]
  const TbsNprb069: seq<int> := [1928, 2536, 3112, 4008, 4968, 5992, 7224, 8504, 9528, 11064, 12216, 14112, 15840, 17568, 19848, 21384, 22152, 24496, 27376, 29296, 31704, 35160, 36696, 39232, 42368, 43816, 51024]
  const TbsNprb070: seq<int> := [1928, 2536, 3112, 4136, 4968, 6200, 7224, 8504, 9912, 11064, 12216, 14112, 15840, 18336, 19848, 21384, 22920, 25456, 27376, 30576, 32856, 35160, 37888, 40576, 42368, 43816, 52752]
  const TbsNprb071: seq<int> := [1992, 2600, 3240, 4136, 5160, 6200, 7480, 8760, 9912, 11064, 12576, 14112, 16416, 18336, 20616, 22152, 22920, 25456, 28336, 30576, 32856, 35160, 37888, 40576, 43816, 45352, 52752]
  const TbsNprb072: seq<int> := [1992, 2600, 3240, 4264, 5160, 6200, 7480, 8760, 9912, 11448, 12576, 14688, 16416, 18336, 20616, 22152, 23688, 26416, 28336, 30576, 34008, 36696, 39232, 40576, 43816, 45352, 52752]
  const TbsNprb073: seq<int> := [2024, 2664, 3240, 4264, 5160, 6456, 7736, 8760, 10296, 11448, 12960, 14688, 16416, 19080, 20616, 22152, 23688, 26416, 29296, 31704, 34008, 36696, 39232, 42368, 45352, 46888, 55056]
  const TbsNprb074: seq<int> := [2088, 2728, 3368, 4392, 5352, 6456, 7736, 9144, 10296, 11832, 12960, 14688, 16992, 19080, 21384, 22920, 24496, 26416, 29296, 31704, 34008, 36696, 40576, 42368, 45352, 46888, 55056]
  const TbsNprb075: seq<int> := [2088, 2728, 3368, 4392, 5352, 6712, 7736, 9144, 10680, 11832, 12960, 15264, 16992, 19080, 21384, 22920, 24496, 27376, 29296, 32856, 35160, 37888, 40576, 43816, 45352, 46888, 55056]
  const TbsNprb076: seq<int> := [2088, 2792, 3368, 4392, 5544, 6712, 7992, 9144, 10680, 11832, 13536, 15264, 17568, 19848, 22152, 23688, 24496, 27376, 30576, 32856, 35160, 37888, 40576, 43816, 46888, 48936, 55056]
  const TbsNprb077: seq<int> := [2152, 2792, 3496, 4584, 5544, 6712, 7992, 9528, 10680, 12216, 13536, 15840, 17568, 19848, 22152, 23688, 25456, 27376, 30576, 32856, 35160, 39232, 42368, 43816, 46888, 48936, 57336]
  const TbsNprb078: seq<int> := [2152, 2856, 3496, 4584, 5544, 6968, 8248, 9528, 11064, 12216, 13536, 15840, 17568, 19848, 22152, 23688, 25456, 28336, 30576, 34008, 36696, 39232, 42368, 45352, 46888, 48936, 57336]
  const TbsNprb079: seq<int> := [2216, 2856, 3496, 4584, 5736, 6968, 8248, 9528, 11064, 12576, 14112, 15840, 18336, 20616, 22920, 24496, 25456, 28336, 31704, 34008, 36696, 39232, 42368, 45352, 48936, 51024, 57336]
  const TbsNprb080: seq<int> := [2216, 2856, 3624, 4776, 5736, 6968, 8248, 9912, 11064, 12576, 14112, 16416, 18336, 20616, 22920, 24496, 26416, 29296, 31704, 34008, 36696, 40576, 43816, 45352, 48936, 51024, 59256]
  const TbsNprb081: seq<int> := [2280, 2984, 3624, 4776, 5736, 7224, 8504, 9912, 11448, 12960, 14112, 16416, 18336, 20616, 22920, 24496, 26416, 29296, 31704, 35160, 37888, 40576, 43816, 46888, 48936, 51024, 59256]
  const TbsNprb082: seq<int> := [2280, 2984, 3624, 4776, 5992, 7224, 8504, 9912, 11448, 12960, 14688, 16416, 19080, 21384, 23688, 25456, 26416, 29296, 32856, 35160, 37888, 40576, 43816, 46888, 51024, 52752, 59256]
  const TbsNprb083: seq<int> := [2280, 2984, 3752, 4776, 5992, 7224, 8760, 10296, 11448, 12960, 14688, 16992, 19080, 21384, 23688, 25456, 27376, 30576, 32856, 35160, 39232, 42368, 45352, 46888, 51024, 52752, 61664]
  const TbsNprb084: seq<int> := [2344, 3112, 3752, 4968, 5992, 7480, 8760, 10296, 11832, 13536, 14688, 16992, 19080, 21384, 24496, 25456, 27376, 30576, 32856, 36696, 39232, 42368, 45352, 48936, 51024, 52752, 61664]
  const TbsNprb085: seq<int> := [2344, 3112, 3880, 4968, 5992, 7480, 8760, 10296, 11832, 13536, 14688, 16992, 19080, 22152, 24496, 26416, 27376, 30576, 34008, 36696, 39232, 42368, 45352, 48936, 52752, 55056, 61664]
  const TbsNprb086: seq<int> := [2408, 3112, 3880, 4968, 6200, 7480, 9144, 10680, 12216, 13536, 15264, 17568, 19848, 22152, 24496, 26416, 28336, 30576, 34008, 36696, 40576, 43816, 46888, 48936, 52752, 55056, 63776]
  const TbsNprb087: seq<int> := [2408, 3240, 3880, 5160, 6200, 7736, 9144, 10680, 12216, 13536, 15264, 17568, 19848, 22152, 25456, 26416, 28336, 31704, 34008, 37888, 40576, 43816, 46888, 51024, 52752, 55056, 63776]
  const TbsNprb088: seq<int> := [2472, 3240, 4008, 5160, 6200, 7736, 9144, 10680, 12216, 14112, 15264, 17568, 19848, 22920, 25456, 27376, 28336, 31704, 35160, 37888, 40576, 43816, 46888, 51024, 52752, 55056, 63776]
  const TbsNprb089: seq<int> := [2472, 3240, 4008, 5160, 6456, 7736, 9144, 11064, 12576, 14112, 15840, 18336, 20616, 22920, 25456, 27376, 29296, 31704, 35160, 37888, 42368, 45352, 48936, 51024, 55056, 57336, 66592]
  const TbsNprb090: seq<int> := [2536, 3240, 4008, 5352, 6456, 7992, 9528, 11064, 12576, 14112, 15840, 18336, 20616, 22920, 25456, 27376, 29296, 32856, 35160, 39232, 42368, 45352, 48936, 51024, 55056, 57336, 66592]
  const TbsNprb091: seq<int> := [2536, 3368, 4136, 5352, 6456, 7992, 9528, 11064, 12576, 14112, 15840, 18336, 20616, 23688, 26416, 28336, 29296, 32856, 36696, 39232, 42368, 45352, 48936, 52752, 55056, 57336, 66592]
  const TbsNprb092: seq<int> := [2536, 3368, 4136, 5352, 6456, 7992, 9528, 11448, 12960, 14688, 16416, 18336, 21384, 23688, 26416, 28336, 30576, 32856, 36696, 39232, 42368, 46888, 48936, 52752, 57336, 59256, 68808]
  const TbsNprb093: seq<int> := [2600, 3368, 4136, 5352, 6712, 8248, 9528, 11448, 12960, 14688, 16416, 19080, 21384, 23688, 26416, 28336, 30576, 34008, 36696, 40576, 43816, 46888, 51024, 52752, 57336, 59256, 68808]
  const TbsNprb094: seq<int> := [2600, 3496, 4264, 5544, 6712, 8248, 9912, 11448, 12960, 14688, 16416, 19080, 21384, 24496, 27376, 29296, 30576, 34008, 37888, 40576, 43816, 46888, 51024, 55056, 57336, 59256, 68808]
  const TbsNprb095: seq<int> := [2664, 3496, 4264, 5544, 6712, 8248, 9912, 11448, 13536, 15264, 16992, 19080, 21384, 24496, 27376, 29296, 30576, 34008, 37888, 40576, 43816, 46888, 51024, 55056, 57336, 61664, 71112]
  const TbsNprb096: seq<int> := [2664, 3496, 4264, 5544, 6968, 8504, 9912, 11832, 13536, 15264, 16992, 19080, 22152, 24496, 27376, 29296, 31704, 35160, 37888, 40576, 45352, 48936, 51024, 55056, 59256, 61664, 71112]
  const TbsNprb097: seq<int> := [2728, 3496, 4392, 5736, 6968, 8504, 10296, 11832, 13536, 15264, 16992, 19848, 22152, 25456, 28336, 29296, 31704, 35160, 37888, 42368, 45352, 48936, 52752, 55056, 59256, 61664, 71112]
  const TbsNprb098: seq<int> := [2728, 3624, 4392, 5736, 6968, 8760, 10296, 11832, 13536, 15264, 16992, 19848, 22152, 25456, 28336, 30576, 31704, 35160, 39232, 42368, 45352, 48936, 52752, 57336, 59256, 61664, 73712]
  const TbsNprb099: seq<int> := [2728, 3624, 4392, 5736, 6968, 8760, 10296, 12216, 14112, 15840, 17568, 19848, 22920, 25456, 28336, 30576, 31704, 35160, 39232, 42368, 46888, 48936, 52752, 57336, 61664, 63776, 73712]
  const TbsNprb100: seq<int> := [2792, 3624, 4584, 5736, 7224, 8760, 10296, 12216, 14112, 15840, 17568, 19848, 22920, 25456, 28336, 30576, 32856, 36696, 39232, 43816, 46888, 51024, 55056, 57336, 61664, 63776, 75376]
  const TbsNprb101: seq<int> := [2792, 3752, 4584, 5992, 7224, 8760, 10680, 12216, 14112, 15840, 17568, 20616, 22920, 26416, 29296, 30576, 32856, 36696, 40576, 43816, 46888, 51024, 55056, 57336, 61664, 63776, 75376]
  const TbsNprb102: seq<int> := [2856, 3752, 4584, 5992, 7224, 9144, 10680, 12576, 14112, 16416, 18336, 20616, 23688, 26416, 29296, 31704, 32856, 36696, 40576, 43816, 46888, 51024, 55056, 59256, 61664, 63776, 75376]
  const TbsNprb103: seq<int> := [2856, 3752, 4584, 5992, 7480, 9144, 10680, 12576, 14688, 16416, 18336, 20616, 23688, 26416, 29296, 31704, 34008, 36696, 40576, 43816, 48936, 51024, 55056, 59256, 63776, 66592, 75376]
  const TbsNprb104: seq<int> := [2856, 3752, 4584, 5992, 7480, 9144, 10680, 12576, 14688, 16416, 18336, 21384, 23688, 26416, 29296, 31704, 34008, 37888, 40576, 45352, 48936, 52752, 57336, 59256, 63776, 66592, 75376]
  const TbsNprb105: seq<int> := [2984, 3880, 4776, 6200, 7480, 9144, 11064, 12960, 14688, 16416, 18336, 21384, 23688, 27376, 30576, 31704, 34008, 37888, 42368, 45352, 48936, 52752, 57336, 59256, 63776, 66592, 75376]
  const TbsNprb106: seq<int> := [2984, 3880, 4776, 6200, 7480, 9528, 11064, 12960, 14688, 16992, 18336, 21384, 24496, 27376, 30576, 32856, 34008, 37888, 42368, 45352, 48936, 52752, 57336, 61664, 63776, 66592, 75376]
  const TbsNprb107: seq<int> := [2984, 3880, 4776, 6200, 7736, 9528, 11064, 12960, 15264, 16992, 19080, 21384, 24496, 27376, 30576, 32856, 35160, 39232, 42368, 46888, 48936, 52752, 57336, 61664, 66592, 68808, 75376]
  const TbsNprb108: seq<int> := [2984, 4008, 4776, 6200, 7736, 9528, 11448, 12960, 15264, 16992, 19080, 22152, 24496, 27376, 30576, 32856, 35160, 39232, 42368, 46888, 51024, 55056, 59256, 61664, 66592, 68808, 75376]
  const TbsNprb109: seq<int> := [2984, 4008, 4968, 6456, 7736, 9528, 11448, 13536, 15264, 16992, 19080, 22152, 24496, 28336, 31704, 34008, 35160, 39232, 43816, 46888, 51024, 55056, 59256, 61664, 66592, 68808, 75376]
  const TbsNprb110: seq<int> := [3112, 4008, 4968, 6456, 7992, 9528, 11448, 13536, 15264, 17568, 19080, 22152, 25456, 28336, 31704, 34008, 35160, 39232, 43816, 46888, 51024, 55056, 59256, 63776, 66592, 71112, 75376]

  /** Row `nprb` of the table, i.e. `TransportBlockSizeTable[nprb - 1]`. */
  function TbsRow(nprb: int): (r: seq<int>)
    requires 1 <= nprb <= NUM_NPRB
    ensures |r| == NUM_ITBS
  {
    if nprb <= 55 then
      if nprb <= 28 then
        if nprb == 1 then TbsNprb001
        else if nprb == 2 then TbsNprb002
        else if nprb == 3 then TbsNprb003
        else if nprb == 4 then TbsNprb004
        else if nprb == 5 then TbsNprb005
        else if nprb == 6 then TbsNprb006
        else if nprb == 7 then TbsNprb007
        else if nprb == 8 then TbsNprb008
        else if nprb == 9 then TbsNprb009
        else if nprb == 10 then TbsNprb010
        else if nprb == 11 then TbsNprb011
        else if nprb == 12 then TbsNprb012
        else if nprb == 13 then TbsNprb013
        else if nprb == 14 then TbsNprb014
        else if nprb == 15 then TbsNprb015
        else if nprb == 16 then TbsNprb016
        else if nprb == 17 then TbsNprb017
        else if nprb == 18 then TbsNprb018
        else if nprb == 19 then TbsNprb019
        else if nprb == 20 then TbsNprb020
        else if nprb == 21 then TbsNprb021
        else if nprb == 22 then TbsNprb022
        else if nprb == 23 then TbsNprb023
        else if nprb == 24 then TbsNprb024
        else if nprb == 25 then TbsNprb025
        else if nprb == 26 then TbsNprb026
        else if nprb == 27 then TbsNprb027
        else TbsNprb028
      else
        if nprb == 29 then TbsNprb029
        else if nprb == 30 then TbsNprb030
        else if nprb == 31 then TbsNprb031
        else if nprb == 32 then TbsNprb032
        else if nprb == 33 then TbsNprb033
        else if nprb == 34 then TbsNprb034
        else if nprb == 35 then TbsNprb035
        else if nprb == 36 then TbsNprb036
        else if nprb == 37 then TbsNprb037
        else if nprb == 38 then TbsNprb038
        else if nprb == 39 then TbsNprb039
        else if nprb == 40 then TbsNprb040
        else if nprb == 41 then TbsNprb041
        else if nprb == 42 then TbsNprb042
        else if nprb == 43 then TbsNprb043
        else if nprb == 44 then TbsNprb044
        else if nprb == 45 then TbsNprb045
        else if nprb == 46 then TbsNprb046
        else if nprb == 47 then TbsNprb047
        else if nprb == 48 then TbsNprb048
        else if nprb == 49 then TbsNprb049
        else if nprb == 50 then TbsNprb050
        else if nprb == 51 then TbsNprb051
        else if nprb == 52 then TbsNprb052
        else if nprb == 53 then TbsNprb053
        else if nprb == 54 then TbsNprb054
        else TbsNprb055
    else
      if nprb <= 83 then
        if nprb == 56 then TbsNprb056
        else if nprb == 57 then TbsNprb057
        else if nprb == 58 then TbsNprb058
        else if nprb == 59 then TbsNprb059
        else if nprb == 60 then TbsNprb060
        else if nprb == 61 then TbsNprb061
        else if nprb == 62 then TbsNprb062
        else if nprb == 63 then TbsNprb063
        else if nprb == 64 then TbsNprb064
        else if nprb == 65 then TbsNprb065
        else if nprb == 66 then TbsNprb066
        else if nprb == 67 then TbsNprb067
        else if nprb == 68 then TbsNprb068
        else if nprb == 69 then TbsNprb069
        else if nprb == 70 then TbsNprb070
        else if nprb == 71 then TbsNprb071
        else if nprb == 72 then TbsNprb072
        else if nprb == 73 then TbsNprb073
        else if nprb == 74 then TbsNprb074
        else if nprb == 75 then TbsNprb075
        else if nprb == 76 then TbsNprb076
        else if nprb == 77 then TbsNprb077
        else if nprb == 78 then TbsNprb078
        else if nprb == 79 then TbsNprb079
        else if nprb == 80 then TbsNprb080
        else if nprb == 81 then TbsNprb081
        else if nprb == 82 then TbsNprb082
        else TbsNprb083
      else
        if nprb == 84 then TbsNprb084
        else if nprb == 85 then TbsNprb085
        else if nprb == 86 then TbsNprb086
        else if nprb == 87 then TbsNprb087
        else if nprb == 88 then TbsNprb088
        else if nprb == 89 then TbsNprb089
        else if nprb == 90 then TbsNprb090
        else if nprb == 91 then TbsNprb091
        else if nprb == 92 then TbsNprb092
        else if nprb == 93 then TbsNprb093
        else if nprb == 94 then TbsNprb094
        else if nprb == 95 then TbsNprb095
        else if nprb == 96 then TbsNprb096
        else if nprb == 97 then TbsNprb097
        else if nprb == 98 then TbsNprb098
        else if nprb == 99 then TbsNprb099
        else if nprb == 100 then TbsNprb100
        else if nprb == 101 then TbsNprb101
        else if nprb == 102 then TbsNprb102
        else if nprb == 103 then TbsNprb103
        else if nprb == 104 then TbsNprb104
        else if nprb == 105 then TbsNprb105
        else if nprb == 106 then TbsNprb106
        else if nprb == 107 then TbsNprb107
        else if nprb == 108 then TbsNprb108
        else if nprb == 109 then TbsNprb109
        else TbsNprb110
  }

  lemma TbsNprb001Shape() ensures RowShape(TbsNprb001, 1) {}
  lemma TbsNprb001BelowNext() ensures RowLe(TbsNprb001, TbsNprb002) {}
  lemma TbsNprb002Shape() ensures RowShape(TbsNprb002, 2) {}
  lemma TbsNprb002BelowNext() ensures RowLe(TbsNprb002, TbsNprb003) {}
  lemma TbsNprb003Shape() ensures RowShape(TbsNprb003, 3) {}
  lemma TbsNprb003BelowNext() ensures RowLe(TbsNprb003, TbsNprb004) {}
  lemma TbsNprb004Shape() ensures RowShape(TbsNprb004, 4) {}
  lemma TbsNprb004BelowNext() ensures RowLe(TbsNprb004, TbsNprb005) {}
  lemma TbsNprb005Shape() ensures RowShape(TbsNprb005, 5) {}
  lemma TbsNprb005BelowNext() ensures RowLe(TbsNprb005, TbsNprb006) {}
  lemma TbsNprb006Shape() ensures RowShape(TbsNprb006, 6) {}
  lemma TbsNprb006BelowNext() ensures RowLe(TbsNprb006, TbsNprb007) {}
  lemma TbsNprb007Shape() ensures RowShape(TbsNprb007, 7) {}
  lemma TbsNprb007BelowNext() ensures RowLe(TbsNprb007, TbsNprb008) {}
  lemma TbsNprb008Shape() ensures RowShape(TbsNprb008, 8) {}
  lemma TbsNprb008BelowNext() ensures RowLe(TbsNprb008, TbsNprb009) {}
  lemma TbsNprb009Shape() ensures RowShape(TbsNprb009, 9) {}
  lemma TbsNprb009BelowNext() ensures RowLe(TbsNprb009, TbsNprb010) {}
  lemma TbsNprb010Shape() ensures RowShape(TbsNprb010, 10) {}
  lemma TbsNprb010BelowNext() ensures RowLe(TbsNprb010, TbsNprb011) {}
  lemma TbsNprb011Shape() ensures RowShape(TbsNprb011, 11) {}
  lemma TbsNprb011BelowNext() ensures RowLe(TbsNprb011, TbsNprb012) {}
  lemma TbsNprb012Shape() ensures RowShape(TbsNprb012, 12) {}
  lemma TbsNprb012BelowNext() ensures RowLe(TbsNprb012, TbsNprb013) {}
  lemma TbsNprb013Shape() ensures RowShape(TbsNprb013, 13) {}
  lemma TbsNprb013BelowNext() ensures RowLe(TbsNprb013, TbsNprb014) {}
  lemma TbsNprb014Shape() ensures RowShape(TbsNprb014, 14) {}
  lemma TbsNprb014BelowNext() ensures RowLe(TbsNprb014, TbsNprb015) {}
  lemma TbsNprb015Shape() ensures RowShape(TbsNprb015, 15) {}
  lemma TbsNprb015BelowNext() ensures RowLe(TbsNprb015, TbsNprb016) {}
  lemma TbsNprb016Shape() ensures RowShape(TbsNprb016, 16) {}
  lemma TbsNprb016BelowNext() ensures RowLe(TbsNprb016, TbsNprb017) {}
  lemma TbsNprb017Shape() ensures RowShape(TbsNprb017, 17) {}
  lemma TbsNprb017BelowNext() ensures RowLe(TbsNprb017, TbsNprb018) {}
  lemma TbsNprb018Shape() ensures RowShape(TbsNprb018, 18) {}
  lemma TbsNprb018BelowNext() ensures RowLe(TbsNprb018, TbsNprb019) {}
  lemma TbsNprb019Shape() ensures RowShape(TbsNprb019, 19) {}
  lemma TbsNprb019BelowNext() ensures RowLe(TbsNprb019, TbsNprb020) {}
  lemma TbsNprb020Shape() ensures RowShape(TbsNprb020, 20) {}
  lemma TbsNprb020BelowNext() ensures RowLe(TbsNprb020, TbsNprb021) {}
  lemma TbsNprb021Shape() ensures RowShape(TbsNprb021, 21) {}
  lemma TbsNprb021BelowNext() ensures RowLe(TbsNprb021, TbsNprb022) {}
  lemma TbsNprb022Shape() ensures RowShape(TbsNprb022, 22) {}
  lemma TbsNprb022BelowNext() ensures RowLe(TbsNprb022, TbsNprb023) {}
  lemma TbsNprb023Shape() ensures RowShape(TbsNprb023, 23) {}
  lemma TbsNprb023BelowNext() ensures RowLe(TbsNprb023, TbsNprb024) {}
  lemma TbsNprb024Shape() ensures RowShape(TbsNprb024, 24) {}
  lemma TbsNprb024BelowNext() ensures RowLe(TbsNprb024, TbsNprb025) {}
  lemma TbsNprb025Shape() ensures RowShape(TbsNprb025, 25) {}
  lemma TbsNprb025BelowNext() ensures RowLe(TbsNprb025, TbsNprb026) {}
  lemma TbsNprb026Shape() ensures RowShape(TbsNprb026, 26) {}
  lemma TbsNprb026BelowNext() ensures RowLe(TbsNprb026, TbsNprb027) {}
  lemma TbsNprb027Shape() ensures RowShape(TbsNprb027, 27) {}
  lemma TbsNprb027BelowNext() ensures RowLe(TbsNprb027, TbsNprb028) {}
  lemma TbsNprb028Shape() ensures RowShape(TbsNprb028, 28) {}
  lemma TbsNprb028BelowNext() ensures RowLe(TbsNprb028, TbsNprb029) {}
  lemma TbsNprb029Shape() ensures RowShape(TbsNprb029, 29) {}
  lemma TbsNprb029BelowNext() ensures RowLe(TbsNprb029, TbsNprb030) {}
  lemma TbsNprb030Shape() ensures RowShape(TbsNprb030, 30) {}
  lemma TbsNprb030BelowNext() ensures RowLe(TbsNprb030, TbsNprb031) {}
  lemma TbsNprb031Shape() ensures RowShape(TbsNprb031, 31) {}
  lemma TbsNprb031BelowNext() ensures RowLe(TbsNprb031, TbsNprb032) {}
  lemma TbsNprb032Shape() ensures RowShape(TbsNprb032, 32) {}
  lemma TbsNprb032BelowNext() ensures RowLe(TbsNprb032, TbsNprb033) {}
  lemma TbsNprb033Shape() ensures RowShape(TbsNprb033, 33) {}
  lemma TbsNprb033BelowNext() ensures RowLe(TbsNprb033, TbsNprb034) {}
  lemma TbsNprb034Shape() ensures RowShape(TbsNprb034, 34) {}
  lemma TbsNprb034BelowNext() ensures RowLe(TbsNprb034, TbsNprb035) {}
  lemma TbsNprb035Shape() ensures RowShape(TbsNprb035, 35) {}
  lemma TbsNprb035BelowNext() ensures RowLe(TbsNprb035, TbsNprb036) {}
  lemma TbsNprb036Shape() ensures RowShape(TbsNprb036, 36) {}
  lemma TbsNprb036BelowNext() ensures RowLe(TbsNprb036, TbsNprb037) {}
  lemma TbsNprb037Shape() ensures RowShape(TbsNprb037, 37) {}
  lemma TbsNprb037BelowNext() ensures RowLe(TbsNprb037, TbsNprb038) {}
  lemma TbsNprb038Shape() ensures RowShape(TbsNprb038, 38) {}
  lemma TbsNprb038BelowNext() ensures RowLe(TbsNprb038, TbsNprb039) {}
  lemma TbsNprb039Shape() ensures RowShape(TbsNprb039, 39) {}
  lemma TbsNprb039BelowNext() ensures RowLe(TbsNprb039, TbsNprb040) {}
  lemma TbsNprb040Shape() ensures RowShape(TbsNprb040, 40) {}
  lemma TbsNprb040BelowNext() ensures RowLe(TbsNprb040, TbsNprb041) {}
  lemma TbsNprb041Shape() ensures RowShape(TbsNprb041, 41) {}
  lemma TbsNprb041BelowNext() ensures RowLe(TbsNprb041, TbsNprb042) {}
  lemma TbsNprb042Shape() ensures RowShape(TbsNprb042, 42) {}
  lemma TbsNprb042BelowNext() ensures RowLe(TbsNprb042, TbsNprb043) {}
  lemma TbsNprb043Shape() ensures RowShape(TbsNprb043, 43) {}
  lemma TbsNprb043BelowNext() ensures RowLe(TbsNprb043, TbsNprb044) {}
  lemma TbsNprb044Shape() ensures RowShape(TbsNprb044, 44) {}
  lemma TbsNprb044BelowNext() ensures RowLe(TbsNprb044, TbsNprb045) {}
  lemma TbsNprb045Shape() ensures RowShape(TbsNprb045, 45) {}
  lemma TbsNprb045BelowNext() ensures RowLe(TbsNprb045, TbsNprb046) {}
  lemma TbsNprb046Shape() ensures RowShape(TbsNprb046, 46) {}
  lemma TbsNprb046BelowNext() ensures RowLe(TbsNprb046, TbsNprb047) {}
  lemma TbsNprb047Shape() ensures RowShape(TbsNprb047, 47) {}
  lemma TbsNprb047BelowNext() ensures RowLe(TbsNprb047, TbsNprb048) {}
  lemma TbsNprb048Shape() ensures RowShape(TbsNprb048, 48) {}
  lemma TbsNprb048BelowNext() ensures RowLe(TbsNprb048, TbsNprb049) {}
  lemma TbsNprb049Shape() ensures RowShape(TbsNprb049, 49) {}
  lemma TbsNprb049BelowNext() ensures RowLe(TbsNprb049, TbsNprb050) {}
  lemma TbsNprb050Shape() ensures RowShape(TbsNprb050, 50) {}
  lemma TbsNprb050BelowNext() ensures RowLe(TbsNprb050, TbsNprb051) {}
  lemma TbsNprb051Shape() ensures RowShape(TbsNprb051, 51) {}
  lemma TbsNprb051BelowNext() ensures RowLe(TbsNprb051, TbsNprb052) {}
  lemma TbsNprb052Shape() ensures RowShape(TbsNprb052, 52) {}
  lemma TbsNprb052BelowNext() ensures RowLe(TbsNprb052, TbsNprb053) {}
  lemma TbsNprb053Shape() ensures RowShape(TbsNprb053, 53) {}
  lemma TbsNprb053BelowNext() ensures RowLe(TbsNprb053, TbsNprb054) {}
  lemma TbsNprb054Shape() ensures RowShape(TbsNprb054, 54) {}
  lemma TbsNprb054BelowNext() ensures RowLe(TbsNprb054, TbsNprb055) {}
  lemma TbsNprb055Shape() ensures RowShape(TbsNprb055, 55) {}
  lemma TbsNprb055BelowNext() ensures RowLe(TbsNprb055, TbsNprb056) {}
  lemma TbsNprb056Shape() ensures RowShape(TbsNprb056, 56) {}
  lemma TbsNprb056BelowNext() ensures RowLe(TbsNprb056, TbsNprb057) {}
  lemma TbsNprb057Shape() ensures RowShape(TbsNprb057, 57) {}
  lemma TbsNprb057BelowNext() ensures RowLe(TbsNprb057, TbsNprb058) {}
  lemma TbsNprb058Shape() ensures RowShape(TbsNprb058, 58) {}
  lemma TbsNprb058BelowNext() ensures RowLe(TbsNprb058, TbsNprb059) {}
  lemma TbsNprb059Shape() ensures RowShape(TbsNprb059, 59) {}
  lemma TbsNprb059BelowNext() ensures RowLe(TbsNprb059, TbsNprb060) {}
  lemma TbsNprb060Shape() ensures RowShape(TbsNprb060, 60) {}
  lemma TbsNprb060BelowNext() ensures RowLe(TbsNprb060, TbsNprb061) {}
  lemma TbsNprb061Shape() ensures RowShape(TbsNprb061, 61) {}
  lemma TbsNprb061BelowNext() ensures RowLe(TbsNprb061, TbsNprb062) {}
  lemma TbsNprb062Shape() ensures RowShape(TbsNprb062, 62) {}
  lemma TbsNprb062BelowNext() ensures RowLe(TbsNprb062, TbsNprb063) {}
  lemma TbsNprb063Shape() ensures RowShape(TbsNprb063, 63) {}
  lemma TbsNprb063BelowNext() ensures RowLe(TbsNprb063, TbsNprb064) {}
  lemma TbsNprb064Shape() ensures RowShape(TbsNprb064, 64) {}
  lemma TbsNprb064BelowNext() ensures RowLe(TbsNprb064, TbsNprb065) {}
  lemma TbsNprb065Shape() ensures RowShape(TbsNprb065, 65) {}
  lemma TbsNprb065BelowNext() ensures RowLe(TbsNprb065, TbsNprb066) {}
  lemma TbsNprb066Shape() ensures RowShape(TbsNprb066, 66) {}
  lemma TbsNprb066BelowNext() ensures RowLe(TbsNprb066, TbsNprb067) {}
  lemma TbsNprb067Shape() ensures RowShape(TbsNprb067, 67) {}
  lemma TbsNprb067BelowNext() ensures RowLe(TbsNprb067, TbsNprb068) {}
  lemma TbsNprb068Shape() ensures RowShape(TbsNprb068, 68) {}
  lemma TbsNprb068BelowNext() ensures RowLe(TbsNprb068, TbsNprb069) {}
  lemma TbsNprb069Shape() ensures RowShape(TbsNprb069, 69) {}
  lemma TbsNprb069BelowNext() ensures RowLe(TbsNprb069, TbsNprb070) {}
  lemma TbsNprb070Shape() ensures RowShape(TbsNprb070, 70) {}
  lemma TbsNprb070BelowNext() ensures RowLe(TbsNprb070, TbsNprb071) {}
  lemma TbsNprb071Shape() ensures RowShape(TbsNprb071, 71) {}
  lemma TbsNprb071BelowNext() ensures RowLe(TbsNprb071, TbsNprb072) {}
  lemma TbsNprb072Shape() ensures RowShape(TbsNprb072, 72) {}
  lemma TbsNprb072BelowNext() ensures RowLe(TbsNprb072, TbsNprb073) {}
  lemma TbsNprb073Shape() ensures RowShape(TbsNprb073, 73) {}
  lemma TbsNprb073BelowNext() ensures RowLe(TbsNprb073, TbsNprb074) {}
  lemma TbsNprb074Shape() ensures RowShape(TbsNprb074, 74) {}
  lemma TbsNprb074BelowNext() ensures RowLe(TbsNprb074, TbsNprb075) {}
  lemma TbsNprb075Shape() ensures RowShape(TbsNprb075, 75) {}
  lemma TbsNprb075BelowNext() ensures RowLe(TbsNprb075, TbsNprb076) {}
  lemma TbsNprb076Shape() ensures RowShape(TbsNprb076, 76) {}
  lemma TbsNprb076BelowNext() ensures RowLe(TbsNprb076, TbsNprb077) {}
  lemma TbsNprb077Shape() ensures RowShape(TbsNprb077, 77) {}
  lemma TbsNprb077BelowNext() ensures RowLe(TbsNprb077, TbsNprb078) {}
  lemma TbsNprb078Shape() ensures RowShape(TbsNprb078, 78) {}
  lemma TbsNprb078BelowNext() ensures RowLe(TbsNprb078, TbsNprb079) {}
  lemma TbsNprb079Shape() ensures RowShape(TbsNprb079, 79) {}
  lemma TbsNprb079BelowNext() ensures RowLe(TbsNprb079, TbsNprb080) {}
  lemma TbsNprb080Shape() ensures RowShape(TbsNprb080, 80) {}
  lemma TbsNprb080BelowNext() ensures RowLe(TbsNprb080, TbsNprb081) {}
  lemma TbsNprb081Shape() ensures RowShape(TbsNprb081, 81) {}
  lemma TbsNprb081BelowNext() ensures RowLe(TbsNprb081, TbsNprb082) {}
  lemma TbsNprb082Shape() ensures RowShape(TbsNprb082, 82) {}
  lemma TbsNprb082BelowNext() ensures RowLe(TbsNprb082, TbsNprb083) {}
  lemma TbsNprb083Shape() ensures RowShape(TbsNprb083, 83) {}
  lemma TbsNprb083BelowNext() ensures RowLe(TbsNprb083, TbsNprb084) {}
  lemma TbsNprb084Shape() ensures RowShape(TbsNprb084, 84) {}
  lemma TbsNprb084BelowNext() ensures RowLe(TbsNprb084, TbsNprb085) {}
  lemma TbsNprb085Shape() ensures RowShape(TbsNprb085, 85) {}
  lemma TbsNprb085BelowNext() ensures RowLe(TbsNprb085, TbsNprb086) {}
  lemma TbsNprb086Shape() ensures RowShape(TbsNprb086, 86) {}
  lemma TbsNprb086BelowNext() ensures RowLe(TbsNprb086, TbsNprb087) {}
  lemma TbsNprb087Shape() ensures RowShape(TbsNprb087, 87) {}
  lemma TbsNprb087BelowNext() ensures RowLe(TbsNprb087, TbsNprb088) {}
  lemma TbsNprb088Shape() ensures RowShape(TbsNprb088, 88) {}
  lemma TbsNprb088BelowNext() ensures RowLe(TbsNprb088, TbsNprb089) {}
  lemma TbsNprb089Shape() ensures RowShape(TbsNprb089, 89) {}
  lemma TbsNprb089BelowNext() ensures RowLe(TbsNprb089, TbsNprb090) {}
  lemma TbsNprb090Shape() ensures RowShape(TbsNprb090, 90) {}
  lemma TbsNprb090BelowNext() ensures RowLe(TbsNprb090, TbsNprb091) {}
  lemma TbsNprb091Shape() ensures RowShape(TbsNprb091, 91) {}
  lemma TbsNprb091BelowNext() ensures RowLe(TbsNprb091, TbsNprb092) {}
  lemma TbsNprb092Shape() ensures RowShape(TbsNprb092, 92) {}
  lemma TbsNprb092BelowNext() ensures RowLe(TbsNprb092, TbsNprb093) {}
  lemma TbsNprb093Shape() ensures RowShape(TbsNprb093, 93) {}
  lemma TbsNprb093BelowNext() ensures RowLe(TbsNprb093, TbsNprb094) {}
  lemma TbsNprb094Shape() ensures RowShape(TbsNprb094, 94) {}
  lemma TbsNprb094BelowNext() ensures RowLe(TbsNprb094, TbsNprb095) {}
  lemma TbsNprb095Shape() ensures RowShape(TbsNprb095, 95) {}
  lemma TbsNprb095BelowNext() ensures RowLe(TbsNprb095, TbsNprb096) {}
  lemma TbsNprb096Shape() ensures RowShape(TbsNprb096, 96) {}
  lemma TbsNprb096BelowNext() ensures RowLe(TbsNprb096, TbsNprb097) {}
  lemma TbsNprb097Shape() ensures RowShape(TbsNprb097, 97) {}
  lemma TbsNprb097BelowNext() ensures RowLe(TbsNprb097, TbsNprb098) {}
  lemma TbsNprb098Shape() ensures RowShape(TbsNprb098, 98) {}
  lemma TbsNprb098BelowNext() ensures RowLe(TbsNprb098, TbsNprb099) {}
  lemma TbsNprb099Shape() ensures RowShape(TbsNprb099, 99) {}
  lemma TbsNprb099BelowNext() ensures RowLe(TbsNprb099, TbsNprb100) {}
  lemma TbsNprb100Shape() ensures RowShape(TbsNprb100, 100) {}
  lemma TbsNprb100BelowNext() ensures RowLe(TbsNprb100, TbsNprb101) {}
  lemma TbsNprb101Shape() ensures RowShape(TbsNprb101, 101) {}
  lemma TbsNprb101BelowNext() ensures RowLe(TbsNprb101, TbsNprb102) {}
  lemma TbsNprb102Shape() ensures RowShape(TbsNprb102, 102) {}
  lemma TbsNprb102BelowNext() ensures RowLe(TbsNprb102, TbsNprb103) {}
  lemma TbsNprb103Shape() ensures RowShape(TbsNprb103, 103) {}
  lemma TbsNprb103BelowNext() ensures RowLe(TbsNprb103, TbsNprb104) {}
  lemma TbsNprb104Shape() ensures RowShape(TbsNprb104, 104) {}
  lemma TbsNprb104BelowNext() ensures RowLe(TbsNprb104, TbsNprb105) {}
  lemma TbsNprb105Shape() ensures RowShape(TbsNprb105, 105) {}
  lemma TbsNprb105BelowNext() ensures RowLe(TbsNprb105, TbsNprb106) {}
  lemma TbsNprb106Shape() ensures RowShape(TbsNprb106, 106) {}
  lemma TbsNprb106BelowNext() ensures RowLe(TbsNprb106, TbsNprb107) {}
  lemma TbsNprb107Shape() ensures RowShape(TbsNprb107, 107) {}
  lemma TbsNprb107BelowNext() ensures RowLe(TbsNprb107, TbsNprb108) {}
  lemma TbsNprb108Shape() ensures RowShape(TbsNprb108, 108) {}
  lemma TbsNprb108BelowNext() ensures RowLe(TbsNprb108, TbsNprb109) {}
  lemma TbsNprb109Shape() ensures RowShape(TbsNprb109, 109) {}
  lemma TbsNprb109BelowNext() ensures RowLe(TbsNprb109, TbsNprb110) {}
  lemma TbsNprb110Shape() ensures RowShape(TbsNprb110, 110) {}

  lemma RowsFrom1()
    ensures forall n :: 1 <= n < 6 ==> RowShape(TbsRow(n), n) && (n < NUM_NPRB ==> RowLe(TbsRow(n), TbsRow(n + 1)))
  {
    forall n | 1 <= n < 6
      ensures RowShape(TbsRow(n), n) && (n < NUM_NPRB ==> RowLe(TbsRow(n), TbsRow(n + 1)))
    {
      if n == 1 { assert TbsRow(n) == TbsNprb001; assert TbsRow(n + 1) == TbsNprb002; TbsNprb001Shape(); TbsNprb001BelowNext(); }
      else if n == 2 { assert TbsRow(n) == TbsNprb002; assert TbsRow(n + 1) == TbsNprb003; TbsNprb002Shape(); TbsNprb002BelowNext(); }
      else if n == 3 { assert TbsRow(n) == TbsNprb003; assert TbsRow(n + 1) == TbsNprb004; TbsNprb003Shape(); TbsNprb003BelowNext(); }
      else if n == 4 { assert TbsRow(n) == TbsNprb004; assert TbsRow(n + 1) == TbsNprb005; TbsNprb004Shape(); TbsNprb004BelowNext(); }
      else if n == 5 { assert TbsRow(n) == TbsNprb005; assert TbsRow(n + 1) == TbsNprb006; TbsNprb005Shape(); TbsNprb005BelowNext(); }
    }
  }

  lemma RowsFrom6()
    ensures forall n :: 6 <= n < 11 ==> RowShape(TbsRow(n), n) && (n < NUM_NPRB ==> RowLe(TbsRow(n), TbsRow(n + 1)))
  {
    forall n | 6 <= n < 11
      ensures RowShape(TbsRow(n), n) && (n < NUM_NPRB ==> RowLe(TbsRow(n), TbsRow(n + 1)))
    {
      if n == 6 { assert TbsRow(n) == TbsNprb006; assert TbsRow(n + 1) == TbsNprb007; TbsNprb006Shape(); TbsNprb006BelowNext(); }
      else if n == 7 { assert TbsRow(n) == TbsNprb007; assert TbsRow(n + 1) == TbsNprb008; TbsNprb007Shape(); TbsNprb007BelowNext(); }
      else if n == 8 { assert TbsRow(n) == TbsNprb008; assert TbsRow(n + 1) == TbsNprb009; TbsNprb008Shape(); TbsNprb008BelowNext(); }
      else if n == 9 { assert TbsRow(n) == TbsNprb009; assert TbsRow(n + 1) == TbsNprb010; TbsNprb009Shape(); TbsNprb009BelowNext(); }
      else if n == 10 { assert TbsRow(n) == TbsNprb010; assert TbsRow(n + 1) == TbsNprb011; TbsNprb010Shape(); TbsNprb010BelowNext(); }
    }
  }

  lemma RowsFrom11()
    ensures forall n :: 11 <= n < 16 ==> RowShape(TbsRow(n), n) && (n < NUM_NPRB ==> RowLe(TbsRow(n), TbsRow(n + 1)))
  {
    forall n | 11 <= n < 16
      ensures RowShape(TbsRow(n), n) && (n < NUM_NPRB ==> RowLe(TbsRow(n), TbsRow(n + 1)))
    {
      if n == 11 { assert TbsRow(n) == TbsNprb011; assert TbsRow(n + 1) == TbsNprb012; TbsNprb011Shape(); TbsNprb011BelowNext(); }
      else if n == 12 { assert TbsRow(n) == TbsNprb012; assert TbsRow(n + 1) == TbsNprb013; TbsNprb012Shape(); TbsNprb012BelowNext(); }
      else if n == 13 { assert TbsRow(n) == TbsNprb013; assert TbsRow(n + 1) == TbsNprb014; TbsNprb013Shape(); TbsNprb013BelowNext(); }
      else if n == 14 { assert TbsRow(n) == TbsNprb014; assert TbsRow(n + 1) == TbsNprb015; TbsNprb014Shape(); TbsNprb014BelowNext(); }
      else if n == 15 { assert TbsRow(n) == TbsNprb015; assert TbsRow(n + 1) == TbsNprb016; TbsNprb015Shape(); TbsNprb015BelowNext(); }
    }
  }

  lemma RowsFrom16()
    ensures forall n :: 16 <= n < 21 ==> RowShape(TbsRow(n), n) && (n < NUM_NPRB ==> RowLe(TbsRow(n), TbsRow(n + 1)))
  {
    forall n | 16 <= n < 21
      ensures RowShape(TbsRow(n), n) && (n < NUM_NPRB ==> RowLe(TbsRow(n), TbsRow(n + 1)))
    {
      if n == 16 { assert TbsRow(n) == TbsNprb016; assert TbsRow(n + 1) == TbsNprb017; TbsNprb016Shape(); TbsNprb016BelowNext(); }
      else if n == 17 { assert TbsRow(n) == TbsNprb017; assert TbsRow(n + 1) == TbsNprb018; TbsNprb017Shape(); TbsNprb017BelowNext(); }
      else if n == 18 { assert TbsRow(n) == TbsNprb018; assert TbsRow(n + 1) == TbsNprb019; TbsNprb018Shape(); TbsNprb018BelowNext(); }
      else if n == 19 { assert TbsRow(n) == TbsNprb019; assert TbsRow(n + 1) == TbsNprb020; TbsNprb019Shape(); TbsNprb019BelowNext(); }
      else if n == 20 { assert TbsRow(n) == TbsNprb020; assert TbsRow(n + 1) == TbsNprb021; TbsNprb020Shape(); TbsNprb020BelowNext(); }
    }
  }

  lemma RowsFrom21()
    ensures forall n :: 21 <= n < 26 ==> RowShape(TbsRow(n), n) && (n < NUM_NPRB ==> RowLe(TbsRow(n), TbsRow(n + 1)))
  {
    forall n | 21 <= n < 26
      ensures RowShape(TbsRow(n), n) && (n < NUM_NPRB ==> RowLe(TbsRow(n), TbsRow(n + 1)))
    {
      if n == 21 { assert TbsRow(n) == TbsNprb021; assert TbsRow(n + 1) == TbsNprb022; TbsNprb021Shape(); TbsNprb021BelowNext(); }
      else if n == 22 { assert TbsRow(n) == TbsNprb022; assert TbsRow(n + 1) == TbsNprb023; TbsNprb022Shape(); TbsNprb022BelowNext(); }
      else if n == 23 { assert TbsRow(n) == TbsNprb023; assert TbsRow(n + 1) == TbsNprb024; TbsNprb023Shape(); TbsNprb023BelowNext(); }
      else if n == 24 { assert TbsRow(n) == TbsNprb024; assert TbsRow(n + 1) == TbsNprb025; TbsNprb024Shape(); TbsNprb024BelowNext(); }
      else if n == 25 { assert TbsRow(n) == TbsNprb025; assert TbsRow(n + 1) == TbsNprb026; TbsNprb025Shape(); TbsNprb025BelowNext(); }
    }
  }

  lemma RowsFrom26()
    ensures forall n :: 26 <= n < 31 ==> RowShape(TbsRow(n), n) && (n < NUM_NPRB ==> RowLe(TbsRow(n), TbsRow(n + 1)))
  {
    forall n | 26 <= n < 31
      ensures RowShape(TbsRow(n), n) && (n < NUM_NPRB ==> RowLe(TbsRow(n), TbsRow(n + 1)))
    {
      if n == 26 { assert TbsRow(n) == TbsNprb026; assert TbsRow(n + 1) == TbsNprb027; TbsNprb026Shape(); TbsNprb026BelowNext(); }
      else if n == 27 { assert TbsRow(n) == TbsNprb027; assert TbsRow(n + 1) == TbsNprb028; TbsNprb027Shape(); TbsNprb027BelowNext(); }
      else if n == 28 { assert TbsRow(n) == TbsNprb028; assert TbsRow(n + 1) == TbsNprb029; TbsNprb028Shape(); TbsNprb028BelowNext(); }
      else if n == 29 { assert TbsRow(n) == TbsNprb029; assert TbsRow(n + 1) == TbsNprb030; TbsNprb029Shape(); TbsNprb029BelowNext(); }
      else if n == 30 { assert TbsRow(n) == TbsNprb030; assert TbsRow(n + 1) == TbsNprb031; TbsNprb030Shape(); TbsNprb030BelowNext(); }
    }
  }

  lemma RowsFrom31()
    ensures forall n :: 31 <= n < 36 ==> RowShape(TbsRow(n), n) && (n < NUM_NPRB ==> RowLe(TbsRow(n), TbsRow(n + 1)))
  {
    forall n | 31 <= n < 36
      ensures RowShape(TbsRow(n), n) && (n < NUM_NPRB ==> RowLe(TbsRow(n), TbsRow(n + 1)))
    {
      if n == 31 { assert TbsRow(n) == TbsNprb031; assert TbsRow(n + 1) == TbsNprb032; TbsNprb031Shape(); TbsNprb031BelowNext(); }
      else if n == 32 { assert TbsRow(n) == TbsNprb032; assert TbsRow(n + 1) == TbsNprb033; TbsNprb032Shape(); TbsNprb032BelowNext(); }
      else if n == 33 { assert TbsRow(n) == TbsNprb033; assert TbsRow(n + 1) == TbsNprb034; TbsNprb033Shape(); TbsNprb033BelowNext(); }
      else if n == 34 { assert TbsRow(n) == TbsNprb034; assert TbsRow(n + 1) == TbsNprb035; TbsNprb034Shape(); TbsNprb034BelowNext(); }
      else if n == 35 { assert TbsRow(n) == TbsNprb035; assert TbsRow(n + 1) == TbsNprb036; TbsNprb035Shape(); TbsNprb035BelowNext(); }
    }
  }

  lemma RowsFrom36()
    ensures forall n :: 36 <= n < 41 ==> RowShape(TbsRow(n), n) && (n < NUM_NPRB ==> RowLe(TbsRow(n), TbsRow(n + 1)))
  {
    forall n | 36 <= n < 41
      ensures RowShape(TbsRow(n), n) && (n < NUM_NPRB ==> RowLe(TbsRow(n), TbsRow(n + 1)))
    {
      if n == 36 { assert TbsRow(n) == TbsNprb036; assert TbsRow(n + 1) == TbsNprb037; TbsNprb036Shape(); TbsNprb036BelowNext(); }
      else if n == 37 { assert TbsRow(n) == TbsNprb037; assert TbsRow(n + 1) == TbsNprb038; TbsNprb037Shape(); TbsNprb037BelowNext(); }
      else if n == 38 { assert TbsRow(n) == TbsNprb038; assert TbsRow(n + 1) == TbsNprb039; TbsNprb038Shape(); TbsNprb038BelowNext(); }
      else if n == 39 { assert TbsRow(n) == TbsNprb039; assert TbsRow(n + 1) == TbsNprb040; TbsNprb039Shape(); TbsNprb039BelowNext(); }
      else if n == 40 { assert TbsRow(n) == TbsNprb040; assert TbsRow(n + 1) == TbsNprb041; TbsNprb040Shape(); TbsNprb040BelowNext(); }
    }
  }

  lemma RowsFrom41()
    ensures forall n :: 41 <= n < 46 ==> RowShape(TbsRow(n), n) && (n < NUM_NPRB ==> RowLe(TbsRow(n), TbsRow(n + 1)))
  {
    forall n | 41 <= n < 46
      ensures RowShape(TbsRow(n), n) && (n < NUM_NPRB ==> RowLe(TbsRow(n), TbsRow(n + 1)))
    {
      if n == 41 { assert TbsRow(n) == TbsNprb041; assert TbsRow(n + 1) == TbsNprb042; TbsNprb041Shape(); TbsNprb041BelowNext(); }
      else if n == 42 { assert TbsRow(n) == TbsNprb042; assert TbsRow(n + 1) == TbsNprb043; TbsNprb042Shape(); TbsNprb042BelowNext(); }
      else if n == 43 { assert TbsRow(n) == TbsNprb043; assert TbsRow(n + 1) == TbsNprb044; TbsNprb043Shape(); TbsNprb043BelowNext(); }
      else if n == 44 { assert TbsRow(n) == TbsNprb044; assert TbsRow(n + 1) == TbsNprb045; TbsNprb044Shape(); TbsNprb044BelowNext(); }
      else if n == 45 { assert TbsRow(n) == TbsNprb045; assert TbsRow(n + 1) == TbsNprb046; TbsNprb045Shape(); TbsNprb045BelowNext(); }
    }
  }

  lemma RowsFrom46()
    ensures forall n :: 46 <= n < 51 ==> RowShape(TbsRow(n), n) && (n < NUM_NPRB ==> RowLe(TbsRow(n), TbsRow(n + 1)))
  {
    forall n | 46 <= n < 51
      ensures RowShape(TbsRow(n), n) && (n < NUM_NPRB ==> RowLe(TbsRow(n), TbsRow(n + 1)))
    {
      if n == 46 { assert TbsRow(n) == TbsNprb046; assert TbsRow(n + 1) == TbsNprb047; TbsNprb046Shape(); TbsNprb046BelowNext(); }
      else if n == 47 { assert TbsRow(n) == TbsNprb047; assert TbsRow(n + 1) == TbsNprb048; TbsNprb047Shape(); TbsNprb047BelowNext(); }
      else if n == 48 { assert TbsRow(n) == TbsNprb048; assert TbsRow(n + 1) == TbsNprb049; TbsNprb048Shape(); TbsNprb048BelowNext(); }
      else if n == 49 { assert TbsRow(n) == TbsNprb049; assert TbsRow(n + 1) == TbsNprb050; TbsNprb049Shape(); TbsNprb049BelowNext(); }
      else if n == 50 { assert TbsRow(n) == TbsNprb050; assert TbsRow(n + 1) == TbsNprb051; TbsNprb050Shape(); TbsNprb050BelowNext(); }
    }
  }

  lemma RowsFrom51()
    ensures forall n :: 51 <= n < 56 ==> RowShape(TbsRow(n), n) && (n < NUM_NPRB ==> RowLe(TbsRow(n), TbsRow(n + 1)))
  {
    forall n | 51 <= n < 56
      ensures RowShape(TbsRow(n), n) && (n < NUM_NPRB ==> RowLe(TbsRow(n), TbsRow(n + 1)))
    {
      if n == 51 { assert TbsRow(n) == TbsNprb051; assert TbsRow(n + 1) == TbsNprb052; TbsNprb051Shape(); TbsNprb051BelowNext(); }
      else if n == 52 { assert TbsRow(n) == TbsNprb052; assert TbsRow(n + 1) == TbsNprb053; TbsNprb052Shape(); TbsNprb052BelowNext(); }
      else if n == 53 { assert TbsRow(n) == TbsNprb053; assert TbsRow(n + 1) == TbsNprb054; TbsNprb053Shape(); TbsNprb053BelowNext(); }
      else if n == 54 { assert TbsRow(n) == TbsNprb054; assert TbsRow(n + 1) == TbsNprb055; TbsNprb054Shape(); TbsNprb054BelowNext(); }
      else if n == 55 { assert TbsRow(n) == TbsNprb055; assert TbsRow(n + 1) == TbsNprb056; TbsNprb055Shape(); TbsNprb055BelowNext(); }
    }
  }

  lemma RowsFrom56()
    ensures forall n :: 56 <= n < 61 ==> RowShape(TbsRow(n), n) && (n < NUM_NPRB ==> RowLe(TbsRow(n), TbsRow(n + 1)))
  {
    forall n | 56 <= n < 61
      ensures RowShape(TbsRow(n), n) && (n < NUM_NPRB ==> RowLe(TbsRow(n), TbsRow(n + 1)))
    {
      if n == 56 { assert TbsRow(n) == TbsNprb056; assert TbsRow(n + 1) == TbsNprb057; TbsNprb056Shape(); TbsNprb056BelowNext(); }
      else if n == 57 { assert TbsRow(n) == TbsNprb057; assert TbsRow(n + 1) == TbsNprb058; TbsNprb057Shape(); TbsNprb057BelowNext(); }
      else if n == 58 { assert TbsRow(n) == TbsNprb058; assert TbsRow(n + 1) == TbsNprb059; TbsNprb058Shape(); TbsNprb058BelowNext(); }
      else if n == 59 { assert TbsRow(n) == TbsNprb059; assert TbsRow(n + 1) == TbsNprb060; TbsNprb059Shape(); TbsNprb059BelowNext(); }
      else if n == 60 { assert TbsRow(n) == TbsNprb060; assert TbsRow(n + 1) == TbsNprb061; TbsNprb060Shape(); TbsNprb060BelowNext(); }
    }
  }

  lemma RowsFrom61()
    ensures forall n :: 61 <= n < 66 ==> RowShape(TbsRow(n), n) && (n < NUM_NPRB ==> RowLe(TbsRow(n), TbsRow(n + 1)))
  {
    forall n | 61 <= n < 66
      ensures RowShape(TbsRow(n), n) && (n < NUM_NPRB ==> RowLe(TbsRow(n), TbsRow(n + 1)))
    {
      if n == 61 { assert TbsRow(n) == TbsNprb061; assert TbsRow(n + 1) == TbsNprb062; TbsNprb061Shape(); TbsNprb061BelowNext(); }
      else if n == 62 { assert TbsRow(n) == TbsNprb062; assert TbsRow(n + 1) == TbsNprb063; TbsNprb062Shape(); TbsNprb062BelowNext(); }
      else if n == 63 { assert TbsRow(n) == TbsNprb063; assert TbsRow(n + 1) == TbsNprb064; TbsNprb063Shape(); TbsNprb063BelowNext(); }
      else if n == 64 { assert TbsRow(n) == TbsNprb064; assert TbsRow(n + 1) == TbsNprb065; TbsNprb064Shape(); TbsNprb064BelowNext(); }
      else if n == 65 { assert TbsRow(n) == TbsNprb065; assert TbsRow(n + 1) == TbsNprb066; TbsNprb065Shape(); TbsNprb065BelowNext(); }
    }
  }

  lemma RowsFrom66()
    ensures forall n :: 66 <= n < 71 ==> RowShape(TbsRow(n), n) && (n < NUM_NPRB ==> RowLe(TbsRow(n), TbsRow(n + 1)))
  {
    forall n | 66 <= n < 71
      ensures RowShape(TbsRow(n), n) && (n < NUM_NPRB ==> RowLe(TbsRow(n), TbsRow(n + 1)))
    {
      if n == 66 { assert TbsRow(n) == TbsNprb066; assert TbsRow(n + 1) == TbsNprb067; TbsNprb066Shape(); TbsNprb066BelowNext(); }
      else if n == 67 { assert TbsRow(n) == TbsNprb067; assert TbsRow(n + 1) == TbsNprb068; TbsNprb067Shape(); TbsNprb067BelowNext(); }
      else if n == 68 { assert TbsRow(n) == TbsNprb068; assert TbsRow(n + 1) == TbsNprb069; TbsNprb068Shape(); TbsNprb068BelowNext(); }
      else if n == 69 { assert TbsRow(n) == TbsNprb069; assert TbsRow(n + 1) == TbsNprb070; TbsNprb069Shape(); TbsNprb069BelowNext(); }
      else if n == 70 { assert TbsRow(n) == TbsNprb070; assert TbsRow(n + 1) == TbsNprb071; TbsNprb070Shape(); TbsNprb070BelowNext(); }
    }
  }

  lemma RowsFrom71()
    ensures forall n :: 71 <= n < 76 ==> RowShape(TbsRow(n), n) && (n < NUM_NPRB ==> RowLe(TbsRow(n), TbsRow(n + 1)))
  {
    forall n | 71 <= n < 76
      ensures RowShape(TbsRow(n), n) && (n < NUM_NPRB ==> RowLe(TbsRow(n), TbsRow(n + 1)))
    {
      if n == 71 { assert TbsRow(n) == TbsNprb071; assert TbsRow(n + 1) == TbsNprb072; TbsNprb071Shape(); TbsNprb071BelowNext(); }
      else if n == 72 { assert TbsRow(n) == TbsNprb072; assert TbsRow(n + 1) == TbsNprb073; TbsNprb072Shape(); TbsNprb072BelowNext(); }
      else if n == 73 { assert TbsRow(n) == TbsNprb073; assert TbsRow(n + 1) == TbsNprb074; TbsNprb073Shape(); TbsNprb073BelowNext(); }
      else if n == 74 { assert TbsRow(n) == TbsNprb074; assert TbsRow(n + 1) == TbsNprb075; TbsNprb074Shape(); TbsNprb074BelowNext(); }
      else if n == 75 { assert TbsRow(n) == TbsNprb075; assert TbsRow(n + 1) == TbsNprb076; TbsNprb075Shape(); TbsNprb075BelowNext(); }
    }
  }

  lemma RowsFrom76()
    ensures forall n :: 76 <= n < 81 ==> RowShape(TbsRow(n), n) && (n < NUM_NPRB ==> RowLe(TbsRow(n), TbsRow(n + 1)))
  {
    forall n | 76 <= n < 81
      ensures RowShape(TbsRow(n), n) && (n < NUM_NPRB ==> RowLe(TbsRow(n), TbsRow(n + 1)))
    {
      if n == 76 { assert TbsRow(n) == TbsNprb076; assert TbsRow(n + 1) == TbsNprb077; TbsNprb076Shape(); TbsNprb076BelowNext(); }
      else if n == 77 { assert TbsRow(n) == TbsNprb077; assert TbsRow(n + 1) == TbsNprb078; TbsNprb077Shape(); TbsNprb077BelowNext(); }
      else if n == 78 { assert TbsRow(n) == TbsNprb078; assert TbsRow(n + 1) == TbsNprb079; TbsNprb078Shape(); TbsNprb078BelowNext(); }
      else if n == 79 { assert TbsRow(n) == TbsNprb079; assert TbsRow(n + 1) == TbsNprb080; TbsNprb079Shape(); TbsNprb079BelowNext(); }
      else if n == 80 { assert TbsRow(n) == TbsNprb080; assert TbsRow(n + 1) == TbsNprb081; TbsNprb080Shape(); TbsNprb080BelowNext(); }
    }
  }

  lemma RowsFrom81()
    ensures forall n :: 81 <= n < 86 ==> RowShape(TbsRow(n), n) && (n < NUM_NPRB ==> RowLe(TbsRow(n), TbsRow(n + 1)))
  {
    forall n | 81 <= n < 86
      ensures RowShape(TbsRow(n), n) && (n < NUM_NPRB ==> RowLe(TbsRow(n), TbsRow(n + 1)))
    {
      if n == 81 { assert TbsRow(n) == TbsNprb081; assert TbsRow(n + 1) == TbsNprb082; TbsNprb081Shape(); TbsNprb081BelowNext(); }
      else if n == 82 { assert TbsRow(n) == TbsNprb082; assert TbsRow(n + 1) == TbsNprb083; TbsNprb082Shape(); TbsNprb082BelowNext(); }
      else if n == 83 { assert TbsRow(n) == TbsNprb083; assert TbsRow(n + 1) == TbsNprb084; TbsNprb083Shape(); TbsNprb083BelowNext(); }
      else if n == 84 { assert TbsRow(n) == TbsNprb084; assert TbsRow(n + 1) == TbsNprb085; TbsNprb084Shape(); TbsNprb084BelowNext(); }
      else if n == 85 { assert TbsRow(n) == TbsNprb085; assert TbsRow(n + 1) == TbsNprb086; TbsNprb085Shape(); TbsNprb085BelowNext(); }
    }
  }

  lemma RowsFrom86()
    ensures forall n :: 86 <= n < 91 ==> RowShape(TbsRow(n), n) && (n < NUM_NPRB ==> RowLe(TbsRow(n), TbsRow(n + 1)))
  {
    forall n | 86 <= n < 91
      ensures RowShape(TbsRow(n), n) && (n < NUM_NPRB ==> RowLe(TbsRow(n), TbsRow(n + 1)))
    {
      if n == 86 { assert TbsRow(n) == TbsNprb086; assert TbsRow(n + 1) == TbsNprb087; TbsNprb086Shape(); TbsNprb086BelowNext(); }
      else if n == 87 { assert TbsRow(n) == TbsNprb087; assert TbsRow(n + 1) == TbsNprb088; TbsNprb087Shape(); TbsNprb087BelowNext(); }
      else if n == 88 { assert TbsRow(n) == TbsNprb088; assert TbsRow(n + 1) == TbsNprb089; TbsNprb088Shape(); TbsNprb088BelowNext(); }
      else if n == 89 { assert TbsRow(n) == TbsNprb089; assert TbsRow(n + 1) == TbsNprb090; TbsNprb089Shape(); TbsNprb089BelowNext(); }
      else if n == 90 { assert TbsRow(n) == TbsNprb090; assert TbsRow(n + 1) == TbsNprb091; TbsNprb090Shape(); TbsNprb090BelowNext(); }
    }
  }

  lemma RowsFrom91()
    ensures forall n :: 91 <= n < 96 ==> RowShape(TbsRow(n), n) && (n < NUM_NPRB ==> RowLe(TbsRow(n), TbsRow(n + 1)))
  {
    forall n | 91 <= n < 96
      ensures RowShape(TbsRow(n), n) && (n < NUM_NPRB ==> RowLe(TbsRow(n), TbsRow(n + 1)))
    {
      if n == 91 { assert TbsRow(n) == TbsNprb091; assert TbsRow(n + 1) == TbsNprb092; TbsNprb091Shape(); TbsNprb091BelowNext(); }
      else if n == 92 { assert TbsRow(n) == TbsNprb092; assert TbsRow(n + 1) == TbsNprb093; TbsNprb092Shape(); TbsNprb092BelowNext(); }
      else if n == 93 { assert TbsRow(n) == TbsNprb093; assert TbsRow(n + 1) == TbsNprb094; TbsNprb093Shape(); TbsNprb093BelowNext(); }
      else if n == 94 { assert TbsRow(n) == TbsNprb094; assert TbsRow(n + 1) == TbsNprb095; TbsNprb094Shape(); TbsNprb094BelowNext(); }
      else if n == 95 { assert TbsRow(n) == TbsNprb095; assert TbsRow(n + 1) == TbsNprb096; TbsNprb095Shape(); TbsNprb095BelowNext(); }
    }
  }

  lemma RowsFrom96()
    ensures forall n :: 96 <= n < 101 ==> RowShape(TbsRow(n), n) && (n < NUM_NPRB ==> RowLe(TbsRow(n), TbsRow(n + 1)))
  {
    forall n | 96 <= n < 101
      ensures RowShape(TbsRow(n), n) && (n < NUM_NPRB ==> RowLe(TbsRow(n), TbsRow(n + 1)))
    {
      if n == 96 { assert TbsRow(n) == TbsNprb096; assert TbsRow(n + 1) == TbsNprb097; TbsNprb096Shape(); TbsNprb096BelowNext(); }
      else if n == 97 { assert TbsRow(n) == TbsNprb097; assert TbsRow(n + 1) == TbsNprb098; TbsNprb097Shape(); TbsNprb097BelowNext(); }
      else if n == 98 { assert TbsRow(n) == TbsNprb098; assert TbsRow(n + 1) == TbsNprb099; TbsNprb098Shape(); TbsNprb098BelowNext(); }
      else if n == 99 { assert TbsRow(n) == TbsNprb099; assert TbsRow(n + 1) == TbsNprb100; TbsNprb099Shape(); TbsNprb099BelowNext(); }
      else if n == 100 { assert TbsRow(n) == TbsNprb100; assert TbsRow(n + 1) == TbsNprb101; TbsNprb100Shape(); TbsNprb100BelowNext(); }
    }
  }

  lemma RowsFrom101()
    ensures forall n :: 101 <= n < 106 ==> RowShape(TbsRow(n), n) && (n < NUM_NPRB ==> RowLe(TbsRow(n), TbsRow(n + 1)))
  {
    forall n | 101 <= n < 106
      ensures RowShape(TbsRow(n), n) && (n < NUM_NPRB ==> RowLe(TbsRow(n), TbsRow(n + 1)))
    {
      if n == 101 { assert TbsRow(n) == TbsNprb101; assert TbsRow(n + 1) == TbsNprb102; TbsNprb101Shape(); TbsNprb101BelowNext(); }
      else if n == 102 { assert TbsRow(n) == TbsNprb102; assert TbsRow(n + 1) == TbsNprb103; TbsNprb102Shape(); TbsNprb102BelowNext(); }
      else if n == 103 { assert TbsRow(n) == TbsNprb103; assert TbsRow(n + 1) == TbsNprb104; TbsNprb103Shape(); TbsNprb103BelowNext(); }
      else if n == 104 { assert TbsRow(n) == TbsNprb104; assert TbsRow(n + 1) == TbsNprb105; TbsNprb104Shape(); TbsNprb104BelowNext(); }
      else if n == 105 { assert TbsRow(n) == TbsNprb105; assert TbsRow(n + 1) == TbsNprb106; TbsNprb105Shape(); TbsNprb105BelowNext(); }
    }
  }

  lemma RowsFrom106()
    ensures forall n :: 106 <= n < 111 ==> RowShape(TbsRow(n), n) && (n < NUM_NPRB ==> RowLe(TbsRow(n), TbsRow(n + 1)))
  {
    forall n | 106 <= n < 111
      ensures RowShape(TbsRow(n), n) && (n < NUM_NPRB ==> RowLe(TbsRow(n), TbsRow(n + 1)))
    {
      if n == 106 { assert TbsRow(n) == TbsNprb106; assert TbsRow(n + 1) == TbsNprb107; TbsNprb106Shape(); TbsNprb106BelowNext(); }
      else if n == 107 { assert TbsRow(n) == TbsNprb107; assert TbsRow(n + 1) == TbsNprb108; TbsNprb107Shape(); TbsNprb107BelowNext(); }
      else if n == 108 { assert TbsRow(n) == TbsNprb108; assert TbsRow(n + 1) == TbsNprb109; TbsNprb108Shape(); TbsNprb108BelowNext(); }
      else if n == 109 { assert TbsRow(n) == TbsNprb109; assert TbsRow(n + 1) == TbsNprb110; TbsNprb109Shape(); TbsNprb109BelowNext(); }
      else if n == 110 { TbsNprb110Shape(); }
    }
  }

  /** Every row has its shape and lies below the next row. */
  lemma TableShape()
    ensures forall n :: 1 <= n <= NUM_NPRB ==> RowShape(TbsRow(n), n) && (n < NUM_NPRB ==> RowLe(TbsRow(n), TbsRow(n + 1)))
  {
    RowsFrom1(); RowsFrom6(); RowsFrom11(); RowsFrom16(); RowsFrom21(); RowsFrom26(); RowsFrom31(); RowsFrom36(); RowsFrom41(); RowsFrom46(); RowsFrom51(); RowsFrom56(); RowsFrom61(); RowsFrom66(); RowsFrom71(); RowsFrom76(); RowsFrom81(); RowsFrom86(); RowsFrom91(); RowsFrom96(); RowsFrom101(); RowsFrom106();
  }

  /** `TransportBlockSizeTable`: row `k` lists the sizes for `k + 1` resource blocks. */
  function TransportBlockSizeTable(): (t: seq<seq<int>>)
    ensures |t| == NUM_NPRB
  {
    seq(NUM_NPRB, k requires 0 <= k < NUM_NPRB => TbsRow(k + 1))
  }

  /** Each row of the stored table is non-decreasing, with at least 16 bits per resource block. */
  lemma StoredRowsShape()
    ensures forall k :: 0 <= k < NUM_NPRB ==> RowShape(TransportBlockSizeTable()[k], k + 1)
  {
    TableShape();
    var t := TransportBlockSizeTable();
    forall k | 0 <= k < NUM_NPRB
      ensures RowShape(t[k], k + 1)
    {
      assert t[k] == TbsRow(k + 1);
    }
  }

  /** Each row of the stored table lies entrywise below the next one. */
  lemma StoredRowsLe()
    ensures forall k :: 0 <= k < NUM_NPRB - 1 ==> RowLe(TransportBlockSizeTable()[k], TransportBlockSizeTable()[k + 1])
  {
    TableShape();
    var t := TransportBlockSizeTable();
    forall k | 0 <= k < NUM_NPRB - 1
      ensures RowLe(t[k], t[k + 1])
    {
      var n := k + 1;
      assert RowLe(TbsRow(n), TbsRow(n + 1));
      assert t[k] == TbsRow(n) && t[k + 1] == TbsRow(n + 1);
    }
  }

  /** The table of 3GPP TS 36.213 Table 7.1.7.2.1-1, as stored, has that shape. */
  lemma TransportBlockSizeTableWellShaped()
    ensures WellShaped(TransportBlockSizeTable())
  {
    var t := TransportBlockSizeTable();
    StoredRowsShape();
    StoredRowsLe();
    assert forall k :: 0 <= k < NUM_NPRB ==> RowShapeAt(t, k);
    assert forall k :: 0 <= k < NUM_NPRB - 1 ==> RowLeAt(t, k);
  }
}
