/** The hand-written 16-run course that the 02 and 03 versions (C and Python alike) drive
    on, `segdata_src`. */
module FixedCourse {
  import Course

  const Table: seq<Course.Run> := [
    Course.Run(20, 0.0, 0.0), Course.Run(10, -0.4, 0.0), Course.Run(20, 0.0, 0.0), Course.Run(5, 2.0, 0.0),
    Course.Run(20, 0.0, 0.4), Course.Run(5, 0.0, 0.0), Course.Run(10, -1.0, 0.0), Course.Run(15, 0.0, -0.5),
    Course.Run(10, 0.0, 0.3), Course.Run(20, -0.2, 0.0), Course.Run(10, 1.0, 0.0), Course.Run(5, -0.4, 0.4),
    Course.Run(10, 0.0, -0.6), Course.Run(5, 0.1, 0.3), Course.Run(10, 0.0, -0.5), Course.Run(20, 0.0, 0.0)
  ]

  /** `SEG_MAX_LIMIT`: room for 30 segments per run. */
  const SegMaxLimit := 30 * 16

  /** The course has 195 segments: more than the 160 a window shows, and within the
      `SEG_MAX_LIMIT` segments the C ports reserve. */
  lemma TableSegCount()
    ensures |Table| == 16
    ensures Course.SegCount(Table) == 195
    ensures 160 < Course.SegCount(Table) <= SegMaxLimit
  {
    assert Table[..0] == [];
    Course.StartNext(Table, 0);
    Course.StartNext(Table, 1);
    Course.StartNext(Table, 2);
    Course.StartNext(Table, 3);
    Course.StartNext(Table, 4);
    Course.StartNext(Table, 5);
    Course.StartNext(Table, 6);
    Course.StartNext(Table, 7);
    Course.StartNext(Table, 8);
    Course.StartNext(Table, 9);
    Course.StartNext(Table, 10);
    Course.StartNext(Table, 11);
    Course.StartNext(Table, 12);
    Course.StartNext(Table, 13);
    Course.StartNext(Table, 14);
    Course.StartNext(Table, 15);
    assert Table[..16] == Table;
  }

  /** `seg_max` of the fixed course. */
  function SegMax(): (n: nat)
    ensures n == Course.SegCount(Table) && n == 195
  {
    TableSegCount();
    195
  }
}
