/**
 * The line `status` prints for a pending session: the placeholders `%p`
 * (project name), `%d` (start date), `%t` (start time) and `%D` (time
 * tracked so far) of the format filled in, in this order.
 */
module StatusLine {
  import opened Strings
  import opened Chrono
  import opened PrettyString
  import opened TimeLog

  /** The four placeholders of `format` filled in, in this order. */
  function Fill(format: string, key: string, date: string, time: string, dur: string): string {
    Replace(Replace(Replace(Replace(format, "%p", key), "%d", date), "%t", time), "%D", dur)
  }

  /** The status line of a pending session. */
  function StatusText(format: string, p: PendingLog, now: Timestamp): string {
    Fill(format, p.key, IsoDate(DateOf(p.start)), TimeOfDayText(p.start), ToPrettyString(now - p.start))
  }

  /**
   * With the format `%p` the line is the project name, whatever the date,
   * time and duration texts, as long as the name holds no other placeholder.
   */
  lemma FillProject(k: string, date: string, time: string, dur: string)
    requires !Occurs("%d", k) && !Occurs("%t", k) && !Occurs("%D", k)
    ensures Fill("%p", k, date, time, dur) == k
  {
    ReplaceWhole("%p", k);
    ReplaceAbsent(k, "%d", date);
    ReplaceAbsent(k, "%t", time);
    ReplaceAbsent(k, "%D", dur);
  }

  /**
   * A `%p` inside a larger format is the project name and the text around it
   * is kept, as long as only that one `%p` is there (`a` does not end in the
   * `%` of another `%p`) and the filled line holds no other placeholder.
   */
  lemma FillProjectIn(a: string, b: string, k: string, date: string, time: string, dur: string)
    requires !Occurs("%p", a) && !Occurs("%p", b)
    requires a == [] || a[|a| - 1] != '%'
    requires !Occurs("%d", a + k + b) && !Occurs("%t", a + k + b) && !Occurs("%D", a + k + b)
    ensures Fill(a + "%p" + b, k, date, time, dur) == a + k + b
  {
    NoEarlierProject(a, b);
    ReplaceSplice(a, "%p", k, b);
    ReplaceAbsent(b, "%p", k);
    ReplaceAbsent(a + k + b, "%d", date);
    ReplaceAbsent(a + k + b, "%t", time);
    ReplaceAbsent(a + k + b, "%D", dur);
  }

  /** No `%p` starts inside `a` in `a + "%p" + b`. */
  lemma NoEarlierProject(a: string, b: string)
    requires !Occurs("%p", a)
    requires a == [] || a[|a| - 1] != '%'
    ensures forall i :: 0 <= i < |a| ==> !OccursAt("%p", a + "%p" + b, i)
  {
    forall i | 0 <= i < |a| ensures !OccursAt("%p", a + "%p" + b, i) {
      var s := a + "%p" + b;
      if i < |a| - 1 {
        assert s[i..i + 2] == a[i..i + 2];
        assert !OccursAt("%p", a, i);
      } else {
        assert s[i] == a[|a| - 1];
      }
    }
  }

  /** With the format `%D` the line is the duration text, whatever the name, date and time. */
  lemma FillDuration(k: string, date: string, time: string, dur: string)
    ensures Fill("%D", k, date, time, dur) == dur
  {
    OtherPlaceholderAbsent("%p");
    OtherPlaceholderAbsent("%d");
    OtherPlaceholderAbsent("%t");
    ReplaceAbsent("%D", "%p", k);
    ReplaceAbsent("%D", "%d", date);
    ReplaceAbsent("%D", "%t", time);
    ReplaceWhole("%D", dur);
  }

  /** `%D` holds none of the other three placeholders. */
  lemma OtherPlaceholderAbsent(pat: string)
    requires pat == "%p" || pat == "%d" || pat == "%t"
    ensures !Occurs(pat, "%D")
  {
    assert !OccursAt(pat, "%D", 0) by {
      assert "%D"[1] == 'D' && pat[1] != 'D';
    }
  }
}
